/**
 What processKeyRequest achieves, stated without its recursion.

 A request tree is flattened into its nodes in left-to-right depth-first order, each with the number of keys that are
 generated before it. Acceptance, the error raised, the private-key log and the number of generated keys are then facts
 about that flat list; the returned text is a fact about an independently defined key tree.
 */
module KeyHelperProofs {
  import opened Wrappers
  import opened Json
  import opened Hex
  import opened HederaKeys
  import opened KeyRequest
  import opened KeyHelper

  // The flat view of a request.

  /** A node of the request tree; position is how many keys are generated before it. */
  datatype Site = Site(request: KeyRequest, position: nat, isChild: bool)

  /** A leaf that makes a new key. */
  predicate Generates(r: KeyRequest) {
    !IsListType(r.kind) && (IsPrivateType(r.kind) || r.fromKey.None?)
  }

  function Generated(r: KeyRequest): nat
    decreases r, 1
  {
    if IsListType(r.kind) then if r.keys.Keys? then GeneratedAll(r.keys.list) else 0
    else if Generates(r) then 1 else 0
  }

  function GeneratedAll(list: seq<KeyRequest>): nat
    decreases list, 0
  {
    if list == [] then 0 else Generated(list[0]) + GeneratedAll(list[1..])
  }

  function Sites(r: KeyRequest, n: nat, isChild: bool): seq<Site>
    decreases r, 1
  {
    [Site(r, n, isChild)] + if IsListType(r.kind) && r.keys.Keys? then SitesAll(r.keys.list, n) else []
  }

  function SitesAll(list: seq<KeyRequest>, n: nat): seq<Site>
    decreases list, 0
  {
    if list == [] then [] else Sites(list[0], n, true) + SitesAll(list[1..], n + Generated(list[0]))
  }

  /** The address text of an evmAddress request, when it has one. */
  function AddressText(b: Backend, s: Site): Result<string, KeyFault> {
    ProcessLeafAddress(b, s.request, s.position)
  }

  function ProcessLeafAddress(b: Backend, r: KeyRequest, n: nat): Result<string, KeyFault> {
    if r.fromKey.Some? then
      var key :- AddressSource(b, r.fromKey.value);
      Ok(BytesToHex(b.evmAddress(key)))
    else Ok(BytesToHex(b.evmAddress(b.publicOf(b.generate(Secp256k1, n)))))
  }

  /** What is wrong with a node, looking at that node alone. */
  function Fault(b: Backend, s: Site): Option<KeyFault> {
    var r := s.request;
    if Misplaced(r).Some? then Misplaced(r)
    else if IsListType(r.kind) then ListFault(r)
    else if IsPublicType(r.kind) && r.fromKey.Some? && PrivateFromStringDer(b, r.fromKey.value).None? then
      Some(BadPrivateKey)
    else if r.kind.EvmAddressKeyType? then
      var text := AddressText(b, s);
      if text.Err? then Some(text.error)
      else if s.isChild && Decode(b, text.value).Err? then Some(Decode(b, text.value).error)
      else None
    else None
  }

  /** The private key that a node adds to the log: only a node inside a list that generates a private or public key. */
  function LogOf(b: Backend, s: Site): seq<string> {
    if s.isChild && Generates(s.request) && !s.request.kind.EvmAddressKeyType? then
      [PrivateToStringDer(GeneratedKey(b, s.request, s.position))]
    else []
  }

  function GeneratedKey(b: Backend, r: KeyRequest, n: nat): PrivateKey {
    b.generate(if IsPrivateType(r.kind) then PrivateAlgorithm(r.kind) else PublicAlgorithm(r.kind), n)
  }

  /** The first fault in the list, if there is one. */
  function FirstFault(b: Backend, sites: seq<Site>): Option<KeyFault> {
    if sites == [] then None
    else if Fault(b, sites[0]).Some? then Fault(b, sites[0])
    else FirstFault(b, sites[1..])
  }

  /** The logs of the nodes before the first fault. */
  function LogUntilFault(b: Backend, sites: seq<Site>): seq<string> {
    if sites == [] || Fault(b, sites[0]).Some? then []
    else LogOf(b, sites[0]) + LogUntilFault(b, sites[1..])
  }

  /** A key is made for the node, unless what is wrong with it is seen before. */
  function Attempts(r: KeyRequest): nat {
    if Misplaced(r).None? && Generates(r) then 1 else 0
  }

  /** The keys made for the nodes up to the first fault. */
  function KeysUntilFault(b: Backend, sites: seq<Site>): nat {
    if sites == [] then 0
    else Attempts(sites[0].request) + if Fault(b, sites[0]).Some? then 0 else KeysUntilFault(b, sites[1..])
  }

  lemma {:induction false} KeysSplit(b: Backend, before: seq<Site>, after: seq<Site>)
    ensures KeysUntilFault(b, before + after)
         == KeysUntilFault(b, before) + if FirstFault(b, before).Some? then 0 else KeysUntilFault(b, after)
  {
    if before == [] {
      assert before + after == after;
    } else {
      assert (before + after)[0] == before[0] && (before + after)[1..] == before[1..] + after;
      KeysSplit(b, before[1..], after);
    }
  }

  lemma {:induction false} FirstFaultSplit(b: Backend, before: seq<Site>, after: seq<Site>)
    ensures FirstFault(b, before + after)
         == if FirstFault(b, before).Some? then FirstFault(b, before) else FirstFault(b, after)
  {
    if before == [] {
      assert before + after == after;
    } else {
      assert (before + after)[0] == before[0] && (before + after)[1..] == before[1..] + after;
      FirstFaultSplit(b, before[1..], after);
    }
  }

  lemma LogsAssociate(first: seq<string>, second: seq<string>, third: seq<string>)
    ensures first + (second + third) == first + second + third
  {
  }

  lemma {:induction false} LogSplit(b: Backend, before: seq<Site>, after: seq<Site>)
    ensures LogUntilFault(b, before + after)
         == LogUntilFault(b, before) + if FirstFault(b, before).Some? then [] else LogUntilFault(b, after)
  {
    if before == [] {
      assert before + after == after;
      assert [] + LogUntilFault(b, after) == LogUntilFault(b, after);
    } else {
      assert (before + after)[0] == before[0] && (before + after)[1..] == before[1..] + after;
      if Fault(b, before[0]).None? {
        LogSplit(b, before[1..], after);
        LogsAssociate(LogOf(b, before[0]), LogUntilFault(b, before[1..]),
                      if FirstFault(b, before[1..]).Some? then [] else LogUntilFault(b, after));
      }
    }
  }

  lemma ScanSplit(b: Backend, before: seq<Site>, after: seq<Site>)
    ensures FirstFault(b, before + after)
         == if FirstFault(b, before).Some? then FirstFault(b, before) else FirstFault(b, after)
    ensures LogUntilFault(b, before + after)
         == LogUntilFault(b, before) + if FirstFault(b, before).Some? then [] else LogUntilFault(b, after)
  {
    FirstFaultSplit(b, before, after);
    LogSplit(b, before, after);
  }

  lemma {:induction false} FirstFaultIsSome(b: Backend, sites: seq<Site>)
    ensures FirstFault(b, sites).Some? <==> exists s :: s in sites && Fault(b, s).Some?
  {
    if sites != [] {
      FirstFaultIsSome(b, sites[1..]);
      assert forall s :: s in sites <==> s == sites[0] || s in sites[1..];
    }
  }

  // The key that a request describes.

  /**
   The key tree of a child: a list keeps its shape, order and threshold; a private or public leaf is the public key of
   the key generated at its position, or of the key it was given; an address leaf is whatever its text decodes to.
   */
  function KeyTree(b: Backend, r: KeyRequest, n: nat): Key
    decreases r, 1
  {
    if IsListType(r.kind) then
      KeyList(ListThreshold(r), if r.keys.Keys? then KeyTrees(b, r.keys.list, n) else [])
    else if r.kind.EvmAddressKeyType? then
      var text := ProcessLeafAddress(b, r, n);
      if text.Ok? && GetHederaKey(b, text.value).Ok? then Publicise(b, GetHederaKey(b, text.value).value)
      else KeyList(0, [])
    else if IsPublicType(r.kind) && r.fromKey.Some? then
      match PrivateFromStringDer(b, r.fromKey.value)
      case Some(key) => Public(b.publicOf(key))
      case None => KeyList(0, [])
    else Public(b.publicOf(GeneratedKey(b, r, n)))
  }

  function KeyTrees(b: Backend, list: seq<KeyRequest>, n: nat): (trees: seq<Key>)
    ensures |trees| == |list|
    decreases list, 0
  {
    if list == [] then []
    else [KeyTree(b, list[0], n)] + KeyTrees(b, list[1..], n + Generated(list[0]))
  }

  // The recursion is a scan.

  lemma ScanOne(b: Backend, s: Site)
    ensures FirstFault(b, [s]) == Fault(b, s)
    ensures LogUntilFault(b, [s]) == if Fault(b, s).Some? then [] else LogOf(b, s)
  {
    assert [s][1..] == [] && FirstFault(b, []) == None && LogUntilFault(b, []) == [];
    assert LogOf(b, s) + [] == LogOf(b, s);
  }

  lemma LeafIsScan(b: Backend, r: KeyRequest, n: nat)
    requires Lawful(b) && !IsListType(r.kind)
    ensures ChildMeets(b, r, n)
  {
    assert Sites(r, n, true) == [Site(r, n, true)];
    ScanOne(b, Site(r, n, true));
    LeafFollows(b, r, n);
    if Misplaced(r).None? {
      LeafDecodes(b, r, n);
    }
  }

  /** A child leaf logs and fails by itself. */
  lemma LeafFollows(b: Backend, r: KeyRequest, n: nat)
    requires Lawful(b) && !IsListType(r.kind)
    ensures var step, s := ProcessChild(b, r, n), Site(r, n, true);
            if Fault(b, s).Some? then step.result == Err(Fault(b, s).value) && step.log == []
            else step.result.Ok? && step.log == LogOf(b, s) && step.next == n + Generated(r)
  {
    if Misplaced(r).None? {
      LeafDecodes(b, r, n);
    }
  }

  /** Decoding the text of a leaf gives a valid key, whose published form is the leaf of the key tree. */
  lemma LeafDecodes(b: Backend, r: KeyRequest, n: nat)
    requires Lawful(b) && !IsListType(r.kind)
    ensures var leaf := ProcessLeaf(b, r, n, true);
            if !r.kind.EvmAddressKeyType? && leaf.result.Ok? then
              && GetHederaKey(b, leaf.result.value).Ok?
              && Valid(b, GetHederaKey(b, leaf.result.value).value)
              && Publicise(b, GetHederaKey(b, leaf.result.value).value) == KeyTree(b, r, n)
            else
              leaf.result.Ok? && GetHederaKey(b, leaf.result.value).Ok? ==>
                && Valid(b, GetHederaKey(b, leaf.result.value).value)
                && Publicise(b, GetHederaKey(b, leaf.result.value).value) == KeyTree(b, r, n)
  {
    if IsPrivateType(r.kind) {
      PrivateDerRoundTrip(b, b.generate(PrivateAlgorithm(r.kind), n));
    } else if IsPublicType(r.kind) {
      var key := if r.fromKey.Some? then PrivateFromStringDer(b, r.fromKey.value)
                 else Some(b.generate(PublicAlgorithm(r.kind), n));
      if key.Some? {
        PublicDerRoundTrip(b, b.publicOf(key.value));
      }
    } else if ProcessLeaf(b, r, n, true).result.Ok? {
      GetHederaKeyValid(b, ProcessLeaf(b, r, n, true).result.value);
    }
  }

  /** One turn of the loop does what a scan of the child's nodes says. */
  ghost predicate ChildMeets(b: Backend, r: KeyRequest, n: nat) {
    var step, sites := ProcessChild(b, r, n), Sites(r, n, true);
    && step.log == LogUntilFault(b, sites)
    && match FirstFault(b, sites)
       case Some(e) => step.result == Err(e)
       case None =>
         && step.result.Ok?
         && step.next == n + Generated(r)
         && Valid(b, step.result.value)
         && Publicise(b, step.result.value) == KeyTree(b, r, n)
  }

  ghost predicate ChildrenMeet(b: Backend, list: seq<KeyRequest>, n: nat) {
    var step, sites := ProcessAll(b, list, n), SitesAll(list, n);
    && step.log == LogUntilFault(b, sites)
    && match FirstFault(b, sites)
       case Some(e) => step.result == Err(e)
       case None =>
         && step.result.Ok?
         && step.next == n + GeneratedAll(list)
         && (forall key | key in step.result.value :: Valid(b, key))
         && PubliciseAll(b, step.result.value) == KeyTrees(b, list, n)
  }

  lemma {:induction false} ChildIsScan(b: Backend, r: KeyRequest, n: nat)
    requires Lawful(b) && WithinLimit(b, KeyTree(b, r, n))
    ensures ChildMeets(b, r, n)
    decreases r, 1
  {
    if !IsListType(r.kind) {
      LeafIsScan(b, r, n);
    } else if Misplaced(r).Some? || ListFault(r).Some? {
      FaultyListIsScan(b, r, n);
    } else {
      MemberFits(b, ListThreshold(r), KeyTrees(b, r.keys.list, n));
      ChildrenAreScan(b, r.keys.list, n);
      ListIsScan(b, r, n);
    }
  }

  lemma FaultyListIsScan(b: Backend, r: KeyRequest, n: nat)
    requires IsListType(r.kind) && (Misplaced(r).Some? || ListFault(r).Some?)
    ensures ChildMeets(b, r, n)
  {
  }

  lemma ListIsScan(b: Backend, r: KeyRequest, n: nat)
    requires Lawful(b) && IsListType(r.kind) && Misplaced(r).None? && ListFault(r).None?
    requires ChildrenMeet(b, r.keys.list, n) && WithinLimit(b, KeyTree(b, r, n))
    ensures ChildMeets(b, r, n)
  {
    var below := SitesAll(r.keys.list, n);
    ScanBelow(b, r, n, true);
    ListDecodes(b, r, n);
    assert FirstFault(b, Sites(r, n, true)) == FirstFault(b, below);
    assert LogUntilFault(b, Sites(r, n, true)) == LogUntilFault(b, below);
    assert Generated(r) == GeneratedAll(r.keys.list);
    assert KeyTree(b, r, n) == KeyList(ListThreshold(r), KeyTrees(b, r.keys.list, n));
  }

  /** A list node without a fault of its own logs nothing itself. */
  lemma ScanBelow(b: Backend, r: KeyRequest, n: nat, isChild: bool)
    requires IsListType(r.kind) && Misplaced(r).None? && ListFault(r).None?
    ensures FirstFault(b, Sites(r, n, isChild)) == FirstFault(b, SitesAll(r.keys.list, n))
    ensures LogUntilFault(b, Sites(r, n, isChild)) == LogUntilFault(b, SitesAll(r.keys.list, n))
  {
  }

  /** A processed list decodes to the published list of its children, and publishing that again changes nothing. */
  lemma ListDecodes(b: Backend, r: KeyRequest, n: nat)
    requires Lawful(b) && IsListType(r.kind) && Misplaced(r).None? && ListFault(r).None?
    requires ChildrenMeet(b, r.keys.list, n) && WithinLimit(b, KeyTree(b, r, n))
    ensures var children, step := ProcessAll(b, r.keys.list, n), ProcessChild(b, r, n);
            && step.log == children.log
            && step.next == children.next
            && (children.result.Err? ==> step.result == Err(children.result.error))
            && (children.result.Ok? ==>
                  && step.result.Ok?
                  && Valid(b, step.result.value)
                  && step.result.value == KeyList(ListThreshold(r), PubliciseAll(b, children.result.value))
                  && Publicise(b, step.result.value) == step.result.value)
  {
    var children := ProcessAll(b, r.keys.list, n);
    if children.result.Ok? {
      var list := KeyList(ListThreshold(r), children.result.value);
      assert FirstFault(b, SitesAll(r.keys.list, n)).None? && Publicise(b, list) == KeyTree(b, r, n);
      PublicisedMessage(b, list);
      ListHexRoundTrip(b, list);
      PubliciseTwice(b, list);
    }
  }

  lemma {:induction false} ChildrenAreScan(b: Backend, list: seq<KeyRequest>, n: nat)
    requires Lawful(b) && forall k | k in KeyTrees(b, list, n) :: WithinLimit(b, k)
    ensures ChildrenMeet(b, list, n)
    decreases list, 0
  {
    if list == [] {
      NoChildrenMeet(b, n);
    } else {
      TreesFit(b, list, n);
      ChildIsScan(b, list[0], n);
      if FirstFault(b, Sites(list[0], n, true)).Some? {
        HeadFails(b, list, n);
      } else {
        ChildrenAreScan(b, list[1..], n + Generated(list[0]));
        ConsMeets(b, list, n);
      }
    }
  }

  lemma TreesFit(b: Backend, list: seq<KeyRequest>, n: nat)
    requires list != [] && forall k | k in KeyTrees(b, list, n) :: WithinLimit(b, k)
    ensures WithinLimit(b, KeyTree(b, list[0], n))
    ensures forall k | k in KeyTrees(b, list[1..], n + Generated(list[0])) :: WithinLimit(b, k)
  {
    assert KeyTree(b, list[0], n) == KeyTrees(b, list, n)[0];
    assert KeyTrees(b, list[1..], n + Generated(list[0])) == KeyTrees(b, list, n)[1..];
  }

  lemma NoChildrenMeet(b: Backend, n: nat)
    ensures ChildrenMeet(b, [], n)
  {
  }

  lemma HeadFails(b: Backend, list: seq<KeyRequest>, n: nat)
    requires list != [] && ChildMeets(b, list[0], n) && FirstFault(b, Sites(list[0], n, true)).Some?
    ensures ChildrenMeet(b, list, n)
  {
    var sites, rest := Sites(list[0], n, true), SitesAll(list[1..], n + Generated(list[0]));
    ScanSplit(b, sites, rest);
    assert SitesAll(list, n) == sites + rest;
    var child := ProcessChild(b, list[0], n);
    assert ProcessAll(b, list, n) == Step(Err(child.result.error), child.log, child.next);
  }

  lemma ConsMeets(b: Backend, list: seq<KeyRequest>, n: nat)
    requires list != [] && ChildMeets(b, list[0], n) && FirstFault(b, Sites(list[0], n, true)).None?
    requires ChildrenMeet(b, list[1..], n + Generated(list[0]))
    ensures ChildrenMeet(b, list, n)
  {
    var later := n + Generated(list[0]);
    var sites, rest := Sites(list[0], n, true), SitesAll(list[1..], later);
    ScanSplit(b, sites, rest);
    assert SitesAll(list, n) == sites + rest;
    var child, step := ProcessChild(b, list[0], n), ProcessAll(b, list[1..], later);
    assert child.next == later;
    if step.result.Ok? {
      var keys := [child.result.value] + step.result.value;
      assert ProcessAll(b, list, n) == Step(Ok(keys), child.log + step.log, step.next);
      assert keys[1..] == step.result.value;
      assert PubliciseAll(b, keys) == [Publicise(b, keys[0])] + PubliciseAll(b, keys[1..]);
    }
  }

  // Keys made, whether or not the processing succeeds.

  lemma {:induction false} ChildNext(b: Backend, r: KeyRequest, n: nat)
    requires Lawful(b) && WithinLimit(b, KeyTree(b, r, n))
    ensures HeadNextMeets(b, r, n)
    decreases r, 1
  {
    var sites := Sites(r, n, true);
    assert sites[0] == Site(r, n, true);
    if IsListType(r.kind) && Misplaced(r).None? && ListFault(r).None? {
      MemberFits(b, ListThreshold(r), KeyTrees(b, r.keys.list, n));
      ChildrenNext(b, r.keys.list, n);
      assert sites[1..] == SitesAll(r.keys.list, n);
    } else if !IsListType(r.kind) {
      assert sites[1..] == [];
    }
  }

  lemma {:induction false} ChildrenNext(b: Backend, list: seq<KeyRequest>, n: nat)
    requires Lawful(b) && forall k | k in KeyTrees(b, list, n) :: WithinLimit(b, k)
    ensures NextMeets(b, list, n)
    decreases list, 0
  {
    if list == [] {
      NothingNext(b, n);
    } else {
      TreesFit(b, list, n);
      ChildNext(b, list[0], n);
      ChildIsScan(b, list[0], n);
      ChildrenNext(b, list[1..], n + Generated(list[0]));
      JoinNext(b, list, n);
    }
  }

  lemma NothingNext(b: Backend, n: nat)
    ensures NextMeets(b, [], n)
  {
  }

  ghost predicate NextMeets(b: Backend, list: seq<KeyRequest>, n: nat) {
    ProcessAll(b, list, n).next == n + KeysUntilFault(b, SitesAll(list, n))
  }

  ghost predicate HeadNextMeets(b: Backend, r: KeyRequest, n: nat) {
    ProcessChild(b, r, n).next == n + KeysUntilFault(b, Sites(r, n, true))
  }

  lemma HeadOutcome(b: Backend, r: KeyRequest, n: nat)
    requires ChildMeets(b, r, n)
    ensures FirstFault(b, Sites(r, n, true)).Some? <==> ProcessChild(b, r, n).result.Err?
    ensures ProcessChild(b, r, n).result.Ok? ==> ProcessChild(b, r, n).next == n + Generated(r)
  {
  }

  lemma JoinNext(b: Backend, list: seq<KeyRequest>, n: nat)
    requires list != [] && ChildMeets(b, list[0], n) && HeadNextMeets(b, list[0], n)
    requires NextMeets(b, list[1..], n + Generated(list[0]))
    ensures NextMeets(b, list, n)
  {
    HeadOutcome(b, list[0], n);
    KeysSplit(b, Sites(list[0], n, true), SitesAll(list[1..], n + Generated(list[0])));
    if ProcessChild(b, list[0], n).result.Err? {
      assert ProcessAll(b, list, n).next == ProcessChild(b, list[0], n).next;
    } else {
      assert ProcessAll(b, list, n).next == ProcessAll(b, list[1..], n + Generated(list[0])).next;
    }
  }

  lemma {:induction false} PubliciseTwice(b: Backend, key: Key)
    requires Lawful(b) && Valid(b, key)
    ensures Publicise(b, Publicise(b, key)) == Publicise(b, key)
    ensures Valid(b, Publicise(b, key))
    decreases key, 1
  {
    if key.KeyList? {
      PubliciseTwiceAll(b, key.keys);
    }
  }

  lemma {:induction false} PubliciseTwiceAll(b: Backend, keys: seq<Key>)
    requires Lawful(b) && forall key | key in keys :: Valid(b, key)
    ensures PubliciseAll(b, PubliciseAll(b, keys)) == PubliciseAll(b, keys)
    ensures forall key | key in PubliciseAll(b, keys) :: Valid(b, key)
    decreases keys, 0
  {
    if keys != [] {
      PubliciseTwice(b, keys[0]);
      PubliciseTwiceAll(b, keys[1..]);
      assert PubliciseAll(b, keys)[1..] == PubliciseAll(b, keys[1..]);
    }
  }

  // Main results.

  /** The keys inside a list are not nested more deeply than the protobuf library reads. */
  ghost predicate PartsFit(b: Backend, r: KeyRequest, n: nat) {
    IsListType(r.kind) && r.keys.Keys? ==> forall k | k in KeyTrees(b, r.keys.list, n) :: WithinLimit(b, k)
  }

  lemma TreeFits(b: Backend, r: KeyRequest, n: nat)
    requires WithinLimit(b, KeyTree(b, r, n))
    ensures PartsFit(b, r, n)
  {
    if IsListType(r.kind) && r.keys.Keys? {
      MemberFits(b, ListThreshold(r), KeyTrees(b, r.keys.list, n));
    }
  }

  /**
   For a list or threshold request, whatever it holds: the call fails with the first fault of the flat list of nodes
   and succeeds if there is none; it logs exactly the keys of the nodes before that fault and has made exactly the keys of
   the nodes up to it; and after a success the text decodes to the key tree of the request, if that can be read at all,
   and the run has generated as many keys as the tree has generating leaves.
   */
  lemma ListRequest(b: Backend, r: KeyRequest, n: nat, isList: bool)
    requires Lawful(b) && IsListType(r.kind) && PartsFit(b, r, n)
    ensures var step, sites := Process(b, r, n, isList), Sites(r, n, isList);
            && step.log == LogUntilFault(b, sites)
            && step.next == n + KeysUntilFault(b, sites)
            && match FirstFault(b, sites)
               case Some(e) => step.result == Err(e)
               case None =>
                 && step.result.Ok?
                 && step.next == n + Generated(r)
                 && (WithinLimit(b, KeyTree(b, r, n)) ==> GetHederaKey(b, step.result.value) == Ok(KeyTree(b, r, n)))
  {
    if Misplaced(r).Some? || ListFault(r).Some? {
      assert Sites(r, n, isList)[0] == Site(r, n, isList);
    } else {
      ScanBelow(b, r, n, isList);
      assert Sites(r, n, isList)[1..] == SitesAll(r.keys.list, n);
      ChildrenAreScan(b, r.keys.list, n);
      ChildrenNext(b, r.keys.list, n);
      if WithinLimit(b, KeyTree(b, r, n)) {
        ListDecodes(b, r, n);
      }
    }
  }

  /**
   How deep a request can be nested: a list without empty lists in it whose parts can be read is processed, but its text
   decodes to its key tree exactly if the whole is within the limit of a library that keeps to it.
   */
  lemma ListRequestLimit(b: Backend, r: KeyRequest, n: nat, isList: bool)
    requires Lawful(b) && Strict(b) && IsListType(r.kind) && PartsFit(b, r, n)
    requires FirstFault(b, Sites(r, n, isList)).None? && Filled(ToProtobuf(b, KeyTree(b, r, n)))
    ensures var step := Process(b, r, n, isList);
            step.result.Ok? && (GetHederaKey(b, step.result.value) == Ok(KeyTree(b, r, n)) <==> WithinLimit(b, KeyTree(b, r, n)))
  {
    ListRequest(b, r, n, isList);
    ScanBelow(b, r, n, isList);
    ChildrenAreScan(b, r.keys.list, n);
    var list := KeyList(ListThreshold(r), ProcessAll(b, r.keys.list, n).result.value);
    assert Publicise(b, list) == KeyTree(b, r, n);
    PublicisedMessage(b, list);
    ListHexIsProtobuf(b, list);
    ProtobufRoundTrip(b, list);
  }

  /** The key whose DER text a leaf returns. */
  function LeafKey(b: Backend, r: KeyRequest, n: nat): Key {
    if IsPrivateType(r.kind) then Private(GeneratedKey(b, r, n)) else KeyTree(b, r, n)
  }

  /**
   A leaf at the root: its one node decides, nothing is logged, and the text is not decoded again. It is the text of the
   private key made, of the public key made or given, or the address.
   */
  lemma LeafRequest(b: Backend, r: KeyRequest, n: nat)
    requires Lawful(b) && !IsListType(r.kind)
    ensures var step := Process(b, r, n, false);
            && step.log == []
            && match Fault(b, Site(r, n, false))
               case Some(e) => step.result == Err(e) && step.next == n
               case None =>
                 && step.result.Ok?
                 && step.next == n + Generated(r)
                 && if r.kind.EvmAddressKeyType? then step.result == AddressText(b, Site(r, n, false))
                    else GetHederaKey(b, step.result.value) == Ok(LeafKey(b, r, n))
  {
    if Fault(b, Site(r, n, false)).None? && IsKeyType(r.kind) {
      LeafText(b, r, n);
    }
  }

  lemma LeafText(b: Backend, r: KeyRequest, n: nat)
    requires Lawful(b) && IsKeyType(r.kind) && ProcessLeaf(b, r, n, false).result.Ok?
    requires IsPrivateType(r.kind) ==> r.fromKey.None?
    ensures GetHederaKey(b, ProcessLeaf(b, r, n, false).result.value) == Ok(LeafKey(b, r, n))
  {
    if IsPrivateType(r.kind) {
      PrivateDerRoundTrip(b, GeneratedKey(b, r, n));
    } else if r.fromKey.None? {
      PublicDerRoundTrip(b, b.publicOf(GeneratedKey(b, r, n)));
    } else {
      DecodedPrivate(b, r.fromKey.value);
      PublicDerRoundTrip(b, b.publicOf(PrivateFromStringDer(b, r.fromKey.value).value));
    }
  }

  predicate IsKeyType(kind: KeyType) {
    IsPrivateType(kind) || IsPublicType(kind)
  }

  // Faults, one by one.

  /** The key is an ECDSA one, whose address can be asked for. */
  predicate IsSecp256k1(key: Key) {
    || (key.Public? && key.publicKey.alg == Secp256k1)
    || (key.Private? && key.privateKey.alg == Secp256k1)
  }

  /**
   An address made from a given key: the text has to decode to an ECDSA key, public or private, and the address is that of
   its public key. No key is made.
   */
  lemma AddressRequest(b: Backend, text: string, n: nat, isList: bool)
    ensures var step := Process(b, KeyRequest(EvmAddressKeyType, Some(text), None, NoKeys), n, isList);
            var decoded := GetHederaKey(b, text);
            && step.next == n && step.log == []
            && (decoded.Err? <==> step.result.Err? && step.result.error.Undecodable?)
            && (decoded.Err? ==> step.result == Err(Undecodable(decoded.error)))
            && (decoded.Ok? && !IsSecp256k1(decoded.value) <==> step.result == Err(NotSecp256k1))
            && (decoded.Ok? && IsSecp256k1(decoded.value) ==>
                  step.result == Ok(BytesToHex(b.evmAddress(
                    if decoded.value.Private? then b.publicOf(decoded.value.privateKey) else decoded.value.publicKey))))
  {
  }

  /** An address without a given key is that of a new ECDSA key. */
  lemma NewAddressRequest(b: Backend, n: nat, isList: bool)
    ensures Process(b, KeyRequest(EvmAddressKeyType, None, None, NoKeys), n, isList)
         == Step(Ok(BytesToHex(b.evmAddress(b.publicOf(b.generate(Secp256k1, n))))), [], n + 1)
  {
  }

  predicate HasStrayKey(r: KeyRequest) {
    r.fromKey.Some? && !r.kind.Ed25519PublicKeyType? && !r.kind.Secp256k1PublicKeyType? && !r.kind.EvmAddressKeyType?
  }

  predicate HasStrayThreshold(r: KeyRequest) {
    r.threshold.Some? && !r.kind.ThresholdKeyType?
  }

  predicate HasStrayList(r: KeyRequest) {
    r.keys.Keys? && !r.kind.ListKeyType? && !r.kind.ThresholdKeyType?
  }

  predicate HasNoStray(r: KeyRequest) {
    !HasStrayKey(r) && !HasStrayThreshold(r) && !HasStrayList(r)
  }

  /** When a node has which fault. */
  lemma FaultKinds(b: Backend, s: Site)
    ensures var r, fault := s.request, Fault(b, s);
            && (fault == Some(FromKeyMisplaced) <==> HasStrayKey(r))
            && (fault == Some(ThresholdMisplaced) <==> !HasStrayKey(r) && HasStrayThreshold(r))
            && (fault == Some(KeysMisplaced) <==> !HasStrayKey(r) && !HasStrayThreshold(r) && HasStrayList(r))
            && (fault == Some(KeysMissing) <==>
                  HasNoStray(r) && (r.kind.ListKeyType? || r.kind.ThresholdKeyType?) && r.keys.NoKeys?)
            && (fault == Some(ThresholdMissing) <==>
                  HasNoStray(r) && r.kind.ThresholdKeyType? && r.keys.Keys? && r.threshold.None?)
            && (fault == Some(BadPrivateKey) <==>
                  && HasNoStray(r) && (r.kind.Ed25519PublicKeyType? || r.kind.Secp256k1PublicKeyType?)
                  && r.fromKey.Some? && PrivateFromStringDer(b, r.fromKey.value).None?)
  {
  }

  /** The faults of addresses. */
  lemma AddressFaultKinds(b: Backend, s: Site)
    ensures var r, fault := s.request, Fault(b, s);
            && (fault == Some(NotSecp256k1) <==>
                  && HasNoStray(r) && r.kind.EvmAddressKeyType? && r.fromKey.Some?
                  && GetHederaKey(b, r.fromKey.value).Ok? && !IsSecp256k1(GetHederaKey(b, r.fromKey.value).value))
            && (fault.Some? && fault.value.Undecodable? <==>
                  && HasNoStray(r) && r.kind.EvmAddressKeyType?
                  && ((r.fromKey.Some? && GetHederaKey(b, r.fromKey.value).Err?) ||
                      (s.isChild && Process(b, r, s.position, true).result.Ok? &&
                       GetHederaKey(b, Process(b, r, s.position, true).result.value).Err?)))
  {
  }

  // Algorithms.

  /** The algorithm that a key type names. */
  function Named(kind: KeyType): Algorithm
    requires IsKeyType(kind)
  {
    if kind.Ed25519PrivateKeyType? || kind.Ed25519PublicKeyType? then Ed25519 else Secp256k1
  }

  /** No new Ed25519 private key is asked for, and a given key has the algorithm that is named. */
  predicate IsServedAsNamed(b: Backend, r: KeyRequest)
    requires IsKeyType(r.kind)
  {
    && !r.kind.Ed25519PrivateKeyType?
    && (r.fromKey.Some? ==>
          PrivateFromStringDer(b, r.fromKey.value).Some? && PrivateFromStringDer(b, r.fromKey.value).value.alg == Named(r.kind))
  }

  /** A private key request at the root is answered with an ECDSA key, so with what it names exactly if it names that. */
  lemma PrivateKeyAlgorithm(b: Backend, r: KeyRequest, n: nat)
    requires Lawful(b) && IsPrivateType(r.kind) && Process(b, r, n, false).result.Ok?
    ensures var k := GeneratedKey(b, r, n);
            && GetHederaKey(b, Process(b, r, n, false).result.value) == Ok(Private(k))
            && k.alg == Secp256k1
            && (k.alg == Named(r.kind) <==> r.kind.Secp256k1PrivateKeyType?)
  {
    LeafRequest(b, r, n);
  }

  /** Such a request: a new Ed25519 private key. */
  lemma Ed25519Example(b: Backend, n: nat)
    requires Lawful(b)
    ensures var r := KeyRequest(Ed25519PrivateKeyType, None, None, NoKeys);
            var text := Process(b, r, n, false).result;
            && text.Ok?
            && GetHederaKey(b, text.value) == Ok(Private(b.generate(Secp256k1, n)))
            && b.generate(Secp256k1, n).alg != Named(r.kind)
  {
    PrivateKeyAlgorithm(b, KeyRequest(Ed25519PrivateKeyType, None, None, NoKeys), n);
  }

  /** A leaf of a request tree becomes a key of the algorithm it names exactly if it is served as named. */
  lemma LeafAlgorithm(b: Backend, r: KeyRequest, n: nat)
    requires Lawful(b) && IsKeyType(r.kind) && Misplaced(r).None?
    requires r.fromKey.Some? ==> PrivateFromStringDer(b, r.fromKey.value).Some?
    ensures KeyTree(b, r, n).Public?
    ensures KeyTree(b, r, n).publicKey.alg == Named(r.kind) <==> IsServedAsNamed(b, r)
  {
    if r.fromKey.Some? {
      DecodedPrivate(b, r.fromKey.value);
    }
  }

  lemma DecodedPrivate(b: Backend, text: string)
    requires Lawful(b) && PrivateFromStringDer(b, text).Some?
    ensures ValidPrivate(b, PrivateFromStringDer(b, text).value)
  {
  }

  /** All key leaves of an accepted tree, at any depth, have the algorithms they name exactly if all are served as named. */
  lemma TreeAlgorithms(b: Backend, r: KeyRequest, n: nat)
    requires Lawful(b) && forall s | s in Sites(r, n, false) :: Fault(b, s).None?
    ensures forall s | s in Sites(r, n, false) && IsKeyType(s.request.kind) ::
              && KeyTree(b, s.request, s.position).Public?
              && (KeyTree(b, s.request, s.position).publicKey.alg == Named(s.request.kind) <==>
                  IsServedAsNamed(b, s.request))
  {
    forall s | s in Sites(r, n, false) && IsKeyType(s.request.kind)
      ensures KeyTree(b, s.request, s.position).Public?
      ensures KeyTree(b, s.request, s.position).publicKey.alg == Named(s.request.kind) <==> IsServedAsNamed(b, s.request)
    {
      assert Fault(b, s).None?;
      LeafAlgorithm(b, s.request, s.position);
    }
  }

  // Nesting.

  /** How many messages lie inside one another in the key of a request, for one without addresses. */
  function Height(r: KeyRequest): nat
    decreases r, 1
  {
    if IsListType(r.kind) then
      (if ListThreshold(r) > 0 then 2 else 1) + (if r.keys.Keys? then HeightAll(r.keys.list) else 0)
    else 0
  }

  function HeightAll(list: seq<KeyRequest>): nat
    decreases list, 0
  {
    if list == [] then 0 else Max(1 + Height(list[0]), HeightAll(list[1..]))
  }

  /** Not an address, and not a given key that cannot be read. */
  predicate IsPlainSite(b: Backend, s: Site) {
    && !s.request.kind.EvmAddressKeyType?
    && (s.request.fromKey.Some? ==> PrivateFromStringDer(b, s.request.fromKey.value).Some?)
  }

  /** The nesting limit is a matter of the request's own height, which a caller can see. */
  lemma {:induction false} HeightDecides(b: Backend, r: KeyRequest, n: nat, isChild: bool)
    requires forall s | s in Sites(r, n, isChild) :: IsPlainSite(b, s)
    ensures WithinLimit(b, KeyTree(b, r, n)) <==> Height(r) <= b.limit
    ensures Depth(ToProtobuf(b, KeyTree(b, r, n))) == Height(r)
    decreases r, 1
  {
    assert Site(r, n, isChild) == Sites(r, n, isChild)[0];
    assert IsPlainSite(b, Site(r, n, isChild));
    if IsListType(r.kind) && r.keys.Keys? {
      assert forall s | s in SitesAll(r.keys.list, n) :: s in Sites(r, n, isChild);
      HeightsDecide(b, r.keys.list, n);
      ListDepth(b, r, n);
    } else {
      LeafDepth(b, r, n);
    }
  }

  lemma LeafDepth(b: Backend, r: KeyRequest, n: nat)
    requires IsListType(r.kind) ==> r.keys.NoKeys?
    requires IsPlainSite(b, Site(r, n, true))
    ensures Depth(ToProtobuf(b, KeyTree(b, r, n))) == Height(r)
  {
    if IsListType(r.kind) {
      assert KeyTree(b, r, n) == KeyList(ListThreshold(r), []) && ToProtobufAll(b, []) == [];
    } else {
      assert KeyTree(b, r, n).Public?;
    }
  }

  lemma ListDepth(b: Backend, r: KeyRequest, n: nat)
    requires IsListType(r.kind) && r.keys.Keys?
    requires DepthAll(ToProtobufAll(b, KeyTrees(b, r.keys.list, n))) == HeightAll(r.keys.list)
    ensures Depth(ToProtobuf(b, KeyTree(b, r, n))) == Height(r)
  {
  }

  lemma {:induction false} HeightsDecide(b: Backend, list: seq<KeyRequest>, n: nat)
    requires forall s | s in SitesAll(list, n) :: IsPlainSite(b, s)
    ensures DepthAll(ToProtobufAll(b, KeyTrees(b, list, n))) == HeightAll(list)
    decreases list, 0
  {
    if list != [] {
      SitesOfHead(list, n);
      HeightDecides(b, list[0], n, true);
      HeightsDecide(b, list[1..], n + Generated(list[0]));
      MessagesOfTrees(b, list, n);
      DepthOfHead(ToProtobuf(b, KeyTree(b, list[0], n)),
                  ToProtobufAll(b, KeyTrees(b, list[1..], n + Generated(list[0]))));
    }
  }

  lemma DepthOfHead(first: ProtoKey, rest: seq<ProtoKey>)
    ensures DepthAll([first] + rest) == Max(1 + Depth(first), DepthAll(rest))
  {
    assert ([first] + rest)[1..] == rest;
  }

  predicate HasNoEmptyList(r: KeyRequest) {
    IsListType(r.kind) ==> r.keys.Keys? && r.keys.list != []
  }

  lemma {:induction false} FilledTree(b: Backend, r: KeyRequest, n: nat, isChild: bool)
    requires forall s | s in Sites(r, n, isChild) :: IsPlainSite(b, s) && HasNoEmptyList(s.request)
    ensures Filled(ToProtobuf(b, KeyTree(b, r, n)))
    decreases r, 1
  {
    assert Site(r, n, isChild) == Sites(r, n, isChild)[0];
    assert IsPlainSite(b, Site(r, n, isChild)) && HasNoEmptyList(Site(r, n, isChild).request);
    if IsListType(r.kind) {
      assert forall s | s in SitesAll(r.keys.list, n) :: s in Sites(r, n, isChild);
      FilledTrees(b, r.keys.list, n);
    } else {
      assert KeyTree(b, r, n).Public?;
    }
  }

  lemma SitesOfHead(list: seq<KeyRequest>, n: nat)
    requires list != []
    ensures forall s :: s in SitesAll(list, n) <==>
              s in Sites(list[0], n, true) || s in SitesAll(list[1..], n + Generated(list[0]))
  {
  }

  lemma MessagesOfTrees(b: Backend, list: seq<KeyRequest>, n: nat)
    requires list != []
    ensures ToProtobufAll(b, KeyTrees(b, list, n))
         == [ToProtobuf(b, KeyTree(b, list[0], n))]
            + ToProtobufAll(b, KeyTrees(b, list[1..], n + Generated(list[0])))
  {
    assert KeyTrees(b, list, n)[1..] == KeyTrees(b, list[1..], n + Generated(list[0]));
  }

  lemma FilledCons(first: ProtoKey, rest: seq<ProtoKey>)
    requires Filled(first) && forall m | m in rest :: Filled(m)
    ensures forall m | m in [first] + rest :: Filled(m)
  {
  }

  lemma {:induction false} FilledTrees(b: Backend, list: seq<KeyRequest>, n: nat)
    requires forall s | s in SitesAll(list, n) :: IsPlainSite(b, s) && HasNoEmptyList(s.request)
    ensures |ToProtobufAll(b, KeyTrees(b, list, n))| == |list|
    ensures forall m | m in ToProtobufAll(b, KeyTrees(b, list, n)) :: Filled(m)
    decreases list, 0
  {
    if list != [] {
      var later := n + Generated(list[0]);
      SitesOfHead(list, n);
      FilledTree(b, list[0], n, true);
      FilledTrees(b, list[1..], later);
      MessagesOfTrees(b, list, n);
      FilledCons(ToProtobuf(b, KeyTree(b, list[0], n)), ToProtobufAll(b, KeyTrees(b, list[1..], later)));
    }
  }

  // Acceptance.

  /** Acceptance: the whole tree is accepted exactly when no node of it, at any depth, has a fault of its own. */
  lemma Acceptance(b: Backend, r: KeyRequest, n: nat)
    requires Lawful(b) && PartsFit(b, r, n)
    ensures Process(b, r, n, false).result.Ok? <==>
            forall s | s in Sites(r, n, false) :: Fault(b, s).None?
  {
    FirstFaultIsSome(b, Sites(r, n, false));
    if IsListType(r.kind) {
      ListRequest(b, r, n, false);
    } else {
      LeafRequest(b, r, n);
      assert Sites(r, n, false) == [Site(r, n, false)];
    }
  }

  /** The fields that a node's type calls for, and no others. */
  predicate WellShaped(r: KeyRequest) {
    && (r.fromKey.Some? ==> IsPublicType(r.kind) || r.kind.EvmAddressKeyType?)
    && (r.threshold.Some? <==> r.kind.ThresholdKeyType?)
    && (r.keys.Keys? <==> IsListType(r.kind))
  }

  /** What the SDK's decoders read of a node can be read: a given private key, an address's source, a child address. */
  predicate IsReadable(b: Backend, s: Site) {
    && (IsPublicType(s.request.kind) && s.request.fromKey.Some? ==>
          PrivateFromStringDer(b, s.request.fromKey.value).Some?)
    && (s.request.kind.EvmAddressKeyType? ==>
          && AddressText(b, s).Ok?
          && (s.isChild ==> GetHederaKey(b, AddressText(b, s).value).Ok?))
  }

  /** Acceptance where the decoders have nothing to object to: what is left is the shape of the nodes. */
  lemma AcceptanceByShape(b: Backend, r: KeyRequest, n: nat)
    requires Lawful(b) && PartsFit(b, r, n)
    requires forall s | s in Sites(r, n, false) :: IsReadable(b, s)
    ensures Process(b, r, n, false).result.Ok? <==>
            forall s | s in Sites(r, n, false) :: WellShaped(s.request)
  {
    Acceptance(b, r, n);
    assert forall s | s in Sites(r, n, false) :: Fault(b, s).None? <==> WellShaped(s.request);
  }

  // How deep a request can be nested, told from the request.

  /** Children whose heights are within the limit are read, and no others. */
  lemma {:induction false} ChildrenFit(b: Backend, list: seq<KeyRequest>, n: nat)
    requires forall s | s in SitesAll(list, n) :: IsPlainSite(b, s)
    ensures (forall k | k in KeyTrees(b, list, n) :: WithinLimit(b, k)) <==>
            forall child | child in list :: Height(child) <= b.limit
    decreases list
  {
    if list != [] {
      var later := n + Generated(list[0]);
      SitesOfHead(list, n);
      HeightDecides(b, list[0], n, true);
      ChildrenFit(b, list[1..], later);
      TreesOfHead(b, list, n);
      assert forall child :: child in list <==> child == list[0] || child in list[1..];
    }
  }

  lemma TreesOfHead(b: Backend, list: seq<KeyRequest>, n: nat)
    requires list != []
    ensures forall k :: k in KeyTrees(b, list, n) <==>
              k == KeyTree(b, list[0], n) || k in KeyTrees(b, list[1..], n + Generated(list[0]))
  {
  }

  /** A node without an address, an unreadable key or an empty list, with the fields that its type calls for. */
  predicate IsProperSite(b: Backend, s: Site) {
    IsPlainSite(b, s) && HasNoEmptyList(s.request) && WellShaped(s.request)
  }

  /**
   A list or threshold request of proper nodes whose children are not too high is accepted, and its text decodes to its
   key tree exactly if its own height is within the limit of a library that keeps to it.
   */
  lemma HeightLimit(b: Backend, r: KeyRequest, n: nat)
    requires Lawful(b) && Strict(b) && IsListType(r.kind)
    requires forall s | s in Sites(r, n, false) :: IsProperSite(b, s)
    requires r.keys.Keys? ==> forall child | child in r.keys.list :: Height(child) <= b.limit
    ensures var text := Process(b, r, n, false).result;
            text.Ok? && (GetHederaKey(b, text.value) == Ok(KeyTree(b, r, n)) <==> Height(r) <= b.limit)
  {
    if r.keys.Keys? {
      assert forall s | s in SitesAll(r.keys.list, n) :: s in Sites(r, n, false);
      ChildrenFit(b, r.keys.list, n);
    }
    assert PartsFit(b, r, n);
    AcceptanceByShape(b, r, n);
    ListRequest(b, r, n, false);
    HeightDecides(b, r, n, false);
    FilledTree(b, r, n, false);
    ListRequestLimit(b, r, n, false);
  }

  /** A new Ed25519 public key inside k key lists. */
  function Nest(k: nat): KeyRequest {
    if k == 0 then KeyRequest(Ed25519PublicKeyType, None, None, NoKeys)
    else KeyRequest(ListKeyType, None, None, Keys([Nest(k - 1)]))
  }

  lemma {:induction false} NestIsProper(b: Backend, k: nat, n: nat, isChild: bool)
    ensures forall s | s in Sites(Nest(k), n, isChild) :: IsProperSite(b, s)
    ensures Height(Nest(k)) == 2 * k
    decreases k
  {
    if k > 0 {
      var list := [Nest(k - 1)];
      NestIsProper(b, k - 1, n, true);
      SitesOfHead(list, n);
      assert list[1..] == [] && HeightAll(list[1..]) == 0 && SitesAll(list[1..], n + Generated(list[0])) == [];
      assert Sites(Nest(k), n, isChild) == [Site(Nest(k), n, isChild)] + SitesAll(list, n);
    } else {
      assert Sites(Nest(k), n, isChild) == [Site(Nest(k), n, isChild)];
    }
  }

  /** One list too many: the request is accepted, but what it returns does not decode to the key tree asked for. */
  lemma TooDeep(b: Backend, n: nat)
    requires Lawful(b) && Strict(b)
    ensures var r := Nest(b.limit / 2 + 1);
            var text := Process(b, r, n, false).result;
            text.Ok? && GetHederaKey(b, text.value) != Ok(KeyTree(b, r, n))
  {
    NestIsProper(b, b.limit / 2 + 1, n, false);
    NestIsProper(b, b.limit / 2, n, true);
    HeightLimit(b, Nest(b.limit / 2 + 1), n);
  }

  /** A threshold is kept modulo 2^32, so a thresholdKey request comes back as a plain list exactly when it asks for 0. */
  lemma ThresholdKept(b: Backend, r: KeyRequest, n: nat)
    requires Lawful(b) && r.kind.ThresholdKeyType? && Process(b, r, n, false).result.Ok?
    requires WithinLimit(b, KeyTree(b, r, n))
    ensures r.threshold.Some?
    ensures var key := GetHederaKey(b, Process(b, r, n, false).result.value);
            && key.Ok? && key.value.KeyList?
            && key.value.threshold == (if r.threshold.value >= 0 then r.threshold.value
                                       else r.threshold.value + 0x1_0000_0000)
            && (ToProtobuf(b, key.value).KeyListMessage? <==> r.threshold.value == 0)
  {
    assert r.threshold.Some? by {
      AcceptedList(b, r, n);
    }
    assert GetHederaKey(b, Process(b, r, n, false).result.value) == Ok(KeyTree(b, r, n)) by {
      TreeFits(b, r, n);
      ListRequest(b, r, n, false);
    }
    ListTree(b, r, n);
  }

  lemma AcceptedList(b: Backend, r: KeyRequest, n: nat)
    requires IsListType(r.kind) && Process(b, r, n, false).result.Ok?
    ensures r.keys.Keys? && (r.kind.ThresholdKeyType? ==> r.threshold.Some?)
  {
  }

  lemma ListTree(b: Backend, r: KeyRequest, n: nat)
    requires r.kind.ThresholdKeyType? && r.threshold.Some?
    ensures var tree: Key, t: int := KeyTree(b, r, n), r.threshold.value;
            && tree.KeyList?
            && tree.threshold == (if t >= 0 then t else t + 0x1_0000_0000)
            && (ToProtobuf(b, tree).KeyListMessage? <==> t == 0)
  {
    var t: int := r.threshold.value;
    assert ToUint32(t) == if t >= 0 then t else t + 0x1_0000_0000;
  }
}
