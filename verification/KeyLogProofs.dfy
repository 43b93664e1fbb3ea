/**
 The private-key log of processKeyRequest against the leaves of the key it returns, and the order in which keys are
 generated (src/tck/src/KeyHelper.cc).
 */
module KeyLogProofs {
  import opened Wrappers
  import opened HederaKeys
  import opened KeyRequest
  import opened KeyHelper
  import opened KeyHelperProofs

  /** How many of the nodes make a new key. */
  function Generating(sites: seq<Site>): nat {
    if sites == [] then 0 else (if Generates(sites[0].request) then 1 else 0) + Generating(sites[1..])
  }

  lemma {:induction false} GeneratingSplit(before: seq<Site>, after: seq<Site>)
    ensures Generating(before + after) == Generating(before) + Generating(after)
  {
    if before == [] {
      assert before + after == after;
    } else {
      assert (before + after)[0] == before[0] && (before + after)[1..] == before[1..] + after;
      GeneratingSplit(before[1..], after);
    }
  }

  /** Positions count from n, one for every node before that makes a key. */
  predicate IsPlaced(sites: seq<Site>, n: nat, i: nat)
    requires i < |sites|
  {
    sites[i].position == n + Generating(sites[..i])
  }

  ghost predicate Consecutive(sites: seq<Site>, n: nat) {
    forall i | 0 <= i < |sites| :: IsPlaced(sites, n, i)
  }

  lemma PlacedInBoth(before: seq<Site>, after: seq<Site>, n: nat, i: nat)
    requires Consecutive(before, n) && Consecutive(after, n + Generating(before))
    requires i < |before + after|
    ensures IsPlaced(before + after, n, i)
  {
    if i < |before| {
      assert (before + after)[..i] == before[..i] && IsPlaced(before, n, i);
    } else {
      var k := i - |before|;
      assert (before + after)[..i] == before + after[..k] && IsPlaced(after, n + Generating(before), k);
      GeneratingSplit(before, after[..k]);
    }
  }

  lemma ConsecutiveSplit(before: seq<Site>, after: seq<Site>, n: nat)
    requires Consecutive(before, n) && Consecutive(after, n + Generating(before))
    ensures Consecutive(before + after, n)
  {
    forall i | 0 <= i < |before + after|
      ensures IsPlaced(before + after, n, i)
    {
      PlacedInBoth(before, after, n, i);
    }
  }

  lemma {:induction false} SitePositions(r: KeyRequest, n: nat, isChild: bool)
    ensures Consecutive(Sites(r, n, isChild), n)
    ensures Generating(Sites(r, n, isChild)) == Generated(r)
    decreases r, 1
  {
    var s := Site(r, n, isChild);
    assert [s][1..] == [] && Generating([s]) == if Generates(r) then 1 else 0;
    assert Consecutive([s], n);
    if IsListType(r.kind) && r.keys.Keys? {
      SitePositionsAll(r.keys.list, n);
      GeneratingSplit([s], SitesAll(r.keys.list, n));
      ConsecutiveSplit([s], SitesAll(r.keys.list, n), n);
    } else {
      assert Sites(r, n, isChild) == [s];
    }
  }

  lemma {:induction false} SitePositionsAll(list: seq<KeyRequest>, n: nat)
    ensures Consecutive(SitesAll(list, n), n)
    ensures Generating(SitesAll(list, n)) == GeneratedAll(list)
    decreases list, 0
  {
    if list != [] {
      var head, tail := Sites(list[0], n, true), SitesAll(list[1..], n + Generated(list[0]));
      SitePositions(list[0], n, true);
      SitePositionsAll(list[1..], n + Generated(list[0]));
      GeneratingSplit(head, tail);
      ConsecutiveSplit(head, tail, n);
    }
  }

  /** The first faulty node. */
  ghost predicate FailsFirstAt(b: Backend, sites: seq<Site>, i: nat) {
    i < |sites| && Fault(b, sites[i]).Some? && forall k | 0 <= k < i :: Fault(b, sites[k]).None?
  }

  lemma {:induction false} KeysBeforeFault(b: Backend, sites: seq<Site>, i: nat)
    requires FailsFirstAt(b, sites, i)
    ensures FirstFault(b, sites) == Fault(b, sites[i])
    ensures KeysUntilFault(b, sites) == Generating(sites[..i]) + Attempts(sites[i].request)
  {
    if i > 0 {
      assert FailsFirstAt(b, sites[1..], i - 1);
      KeysBeforeFault(b, sites[1..], i - 1);
      assert sites[..i][1..] == sites[1..][..i - 1];
      assert Fault(b, sites[0]).None?;
    }
  }

  /**
   How many keys a failed list request has made: those of the nodes before the first faulty one, and one more exactly if
   that is an address that was made but does not decode as a key.
   */
  lemma KeysAfterFailure(b: Backend, r: KeyRequest, n: nat, i: nat)
    requires Lawful(b) && IsListType(r.kind) && PartsFit(b, r, n) && FailsFirstAt(b, Sites(r, n, false), i)
    ensures var step, s := Process(b, r, n, false), Sites(r, n, false)[i];
            && step.result == Err(Fault(b, s).value)
            && step.next == s.position + if s.request.kind.EvmAddressKeyType? && Misplaced(s.request).None? &&
                                            s.request.fromKey.None? then 1 else 0
  {
    ListRequest(b, r, n, false);
    KeysBeforeFault(b, Sites(r, n, false), i);
    SitePositions(r, n, false);
    assert IsPlaced(Sites(r, n, false), n, i);
  }

  /** The key at the position is made: for a node that is reached, and whose fault, if it has one, comes after. */
  ghost predicate IsMade(b: Backend, sites: seq<Site>, p: nat) {
    exists k: nat :: IsMadeFor(b, sites, k, p)
  }

  ghost predicate IsMadeFor(b: Backend, sites: seq<Site>, k: nat, p: nat) {
    && k < |sites| && sites[k].position == p && Attempts(sites[k].request) == 1
    && forall m | 0 <= m < k :: Fault(b, sites[m]).None?
  }

  lemma ConsecutiveTail(sites: seq<Site>, n: nat)
    requires sites != [] && Consecutive(sites, n)
    ensures sites[0].position == n
    ensures Consecutive(sites[1..], n + if Generates(sites[0].request) then 1 else 0)
  {
    assert IsPlaced(sites, n, 0) && sites[..0] == [];
    var rest, later := sites[1..], n + if Generates(sites[0].request) then 1 else 0;
    forall i | 0 <= i < |rest|
      ensures IsPlaced(rest, later, i)
    {
      assert IsPlaced(sites, n, i + 1);
      assert sites[..i + 1][0] == sites[0] && sites[..i + 1][1..] == rest[..i];
    }
  }

  /** The positions are those from n on, as many as keys are made. */
  lemma {:induction false} MadeExactly(b: Backend, sites: seq<Site>, n: nat)
    requires Consecutive(sites, n)
    ensures forall p: nat :: IsMade(b, sites, p) <==> n <= p < n + KeysUntilFault(b, sites)
  {
    if sites != [] {
      ConsecutiveTail(sites, n);
      if Fault(b, sites[0]).None? {
        MadeExactly(b, sites[1..], n + Attempts(sites[0].request));
      }
      forall p: nat
        ensures IsMade(b, sites, p) <==>
                || (p == n && Attempts(sites[0].request) == 1)
                || (Fault(b, sites[0]).None? && IsMade(b, sites[1..], p))
      {
        MadeFirstOrLater(b, sites, p);
      }
    }
  }

  lemma MadeFirstOrLater(b: Backend, sites: seq<Site>, p: nat)
    requires sites != []
    ensures IsMade(b, sites, p) <==>
            || (p == sites[0].position && Attempts(sites[0].request) == 1)
            || (Fault(b, sites[0]).None? && IsMade(b, sites[1..], p))
  {
    if IsMade(b, sites, p) {
      var k: nat :| IsMadeFor(b, sites, k, p);
      if k > 0 {
        assert IsMadeFor(b, sites[1..], k - 1, p);
      }
    }
    if p == sites[0].position && Attempts(sites[0].request) == 1 {
      assert IsMadeFor(b, sites, 0, p);
    }
    if Fault(b, sites[0]).None? && IsMade(b, sites[1..], p) {
      var k: nat :| IsMadeFor(b, sites[1..], k, p);
      assert IsMadeFor(b, sites, k + 1, p);
    }
  }

  /** A leaf of a key tree with the private key it was generated from, if its private key is logged. */
  datatype Entry = Entry(leaf: Key, origin: Option<PrivateKey>)

  /** The keys in a key tree that are not lists, from left to right. */
  function LeavesOf(key: Key): seq<Key>
    decreases key, 1
  {
    if key.KeyList? then LeavesOfAll(key.keys) else [key]
  }

  function LeavesOfAll(keys: seq<Key>): seq<Key>
    decreases keys, 0
  {
    if keys == [] then [] else LeavesOf(keys[0]) + LeavesOfAll(keys[1..])
  }

  function Unlogged(leaves: seq<Key>): (entries: seq<Entry>)
    ensures |entries| == |leaves|
    ensures forall i | 0 <= i < |leaves| :: entries[i] == Entry(leaves[i], None)
  {
    seq(|leaves|, i requires 0 <= i < |leaves| => Entry(leaves[i], None))
  }

  /** The leaves that a node contributes to the key tree. */
  function EntriesOf(b: Backend, s: Site): seq<Entry> {
    if IsListType(s.request.kind) then []
    else if s.isChild && Generates(s.request) && !s.request.kind.EvmAddressKeyType? then
      var key := GeneratedKey(b, s.request, s.position);
      [Entry(Public(b.publicOf(key)), Some(key))]
    else Unlogged(LeavesOf(KeyTree(b, s.request, s.position)))
  }

  function Entries(b: Backend, sites: seq<Site>): seq<Entry> {
    if sites == [] then [] else EntriesOf(b, sites[0]) + Entries(b, sites[1..])
  }

  function LeafColumn(entries: seq<Entry>): (leaves: seq<Key>)
    ensures |leaves| == |entries|
    ensures forall i | 0 <= i < |entries| :: leaves[i] == entries[i].leaf
  {
    seq(|entries|, i requires 0 <= i < |entries| => entries[i].leaf)
  }

  /** The private keys among the entries, in order. */
  function OriginColumn(entries: seq<Entry>): seq<string> {
    if entries == [] then []
    else (if entries[0].origin.Some? then [PrivateToStringDer(entries[0].origin.value)] else [])
         + OriginColumn(entries[1..])
  }

  lemma {:induction false} OriginSplit(before: seq<Entry>, after: seq<Entry>)
    ensures OriginColumn(before + after) == OriginColumn(before) + OriginColumn(after)
  {
    if before == [] {
      assert before + after == after;
    } else {
      assert (before + after)[0] == before[0] && (before + after)[1..] == before[1..] + after;
      OriginSplit(before[1..], after);
    }
  }

  lemma {:induction false} UnloggedHasNoOrigin(entries: seq<Entry>)
    requires forall e | e in entries :: e.origin.None?
    ensures OriginColumn(entries) == []
  {
    if entries != [] {
      UnloggedHasNoOrigin(entries[1..]);
    }
  }

  lemma {:induction false} EntriesSplit(b: Backend, before: seq<Site>, after: seq<Site>)
    ensures Entries(b, before + after) == Entries(b, before) + Entries(b, after)
  {
    if before == [] {
      assert before + after == after;
    } else {
      assert (before + after)[0] == before[0] && (before + after)[1..] == before[1..] + after;
      EntriesSplit(b, before[1..], after);
    }
  }

  /** Without a fault the log is the private keys of the entries. */
  lemma {:induction false} LogIsOrigins(b: Backend, sites: seq<Site>)
    requires FirstFault(b, sites).None?
    ensures LogUntilFault(b, sites) == OriginColumn(Entries(b, sites))
  {
    if sites != [] {
      var here := EntriesOf(b, sites[0]);
      LogIsOrigins(b, sites[1..]);
      OriginSplit(here, Entries(b, sites[1..]));
      if LogOf(b, sites[0]) == [] {
        UnloggedHasNoOrigin(here);
      } else {
        assert here[1..] == [] && OriginColumn(here[1..]) == [];
        assert OriginColumn(here) == LogOf(b, sites[0]);
      }
    }
  }

  lemma {:induction false} TreeLeaves(b: Backend, r: KeyRequest, n: nat)
    ensures LeafColumn(Entries(b, Sites(r, n, true))) == LeavesOf(KeyTree(b, r, n))
    decreases r, 1
  {
    var s := Site(r, n, true);
    EntriesSplit(b, [s], Sites(r, n, true)[1..]);
    assert [s] + Sites(r, n, true)[1..] == Sites(r, n, true);
    assert [s][1..] == [] && Entries(b, [s]) == EntriesOf(b, s) + [];
    if IsListType(r.kind) {
      if r.keys.Keys? {
        TreeLeavesAll(b, r.keys.list, n);
      }
    } else {
      assert Sites(r, n, true) == [s];
    }
  }

  lemma {:induction false} TreeLeavesAll(b: Backend, list: seq<KeyRequest>, n: nat)
    ensures LeafColumn(Entries(b, SitesAll(list, n))) == LeavesOfAll(KeyTrees(b, list, n))
    decreases list, 0
  {
    if list != [] {
      var later := n + Generated(list[0]);
      var head, tail := Entries(b, Sites(list[0], n, true)), Entries(b, SitesAll(list[1..], later));
      TreeLeaves(b, list[0], n);
      TreeLeavesAll(b, list[1..], later);
      EntriesSplit(b, Sites(list[0], n, true), SitesAll(list[1..], later));
      LeafColumnSplit(head, tail);
      var first, rest := KeyTree(b, list[0], n), KeyTrees(b, list[1..], later);
      assert LeavesOfAll([first] + rest) == LeavesOf(first) + LeavesOfAll(([first] + rest)[1..]);
      assert ([first] + rest)[1..] == rest;
    }
  }

  lemma LeafColumnSplit(before: seq<Entry>, after: seq<Entry>)
    ensures LeafColumn(before + after) == LeafColumn(before) + LeafColumn(after)
  {
  }

  lemma {:induction false} OriginsMatchLeaves(b: Backend, sites: seq<Site>)
    ensures forall e | e in Entries(b, sites) && e.origin.Some? :: e.leaf == Public(b.publicOf(e.origin.value))
  {
    if sites != [] {
      OriginsMatchLeaves(b, sites[1..]);
      assert Entries(b, sites) == EntriesOf(b, sites[0]) + Entries(b, sites[1..]);
    }
  }

  /**
   The private-key log of a successful list request: pairing the leaves of the returned key, from left to right, with
   the private keys they were generated from, gives the log in the same order, and each logged key belongs to its leaf.
   */
  lemma PrivateKeyLog(b: Backend, r: KeyRequest, n: nat)
    requires Lawful(b) && IsListType(r.kind) && Process(b, r, n, false).result.Ok? && WithinLimit(b, KeyTree(b, r, n))
    ensures var step, entries := Process(b, r, n, false), Entries(b, Sites(r, n, false));
            && GetHederaKey(b, step.result.value).Ok?
            && LeavesOf(GetHederaKey(b, step.result.value).value) == LeafColumn(entries)
            && step.log == OriginColumn(entries)
            && forall e | e in entries && e.origin.Some? :: e.leaf == Public(b.publicOf(e.origin.value))
  {
    var sites := Sites(r, n, false);
    TreeFits(b, r, n);
    ListRequest(b, r, n, false);
    LogIsOrigins(b, sites);
    TreeLeaves(b, r, n);
    OriginsMatchLeaves(b, sites);
    assert Entries(b, sites) == Entries(b, Sites(r, n, true)) by {
      assert sites[1..] == Sites(r, n, true)[1..];
      assert EntriesOf(b, sites[0]) == [] == EntriesOf(b, Sites(r, n, true)[0]);
    }
  }
}
