/** The stream of generated keys over a run of the server: every request takes its own part of it. */
module KeyStreamProofs {
  import opened Wrappers
  import opened Json
  import opened HederaKeys
  import opened JsonTypeMapper
  import opened JsonTypeMapperProofs
  import opened TckServer
  import opened TckRunProofs
  import opened GenerateKeyParameters
  import opened ServedKeys
  import KR = KeyRequest
  import KH = KeyHelper
  import KP = KeyHelperProofs
  import KL = KeyLogProofs

  lemma {:induction false} ProcessAdvances(b: Backend, r: KR.KeyRequest, n: nat, isList: bool)
    ensures KH.Process(b, r, n, isList).next >= n
    decreases r, 1
  {
    if KH.Misplaced(r).None? && KH.IsListType(r.kind) && KH.ListFault(r).None? {
      ProcessAllAdvances(b, r.keys.list, n);
    }
  }

  lemma {:induction false} ProcessAllAdvances(b: Backend, list: seq<KR.KeyRequest>, n: nat)
    ensures KH.ProcessAll(b, list, n).next >= n
    decreases list, 0
  {
    if list != [] {
      ProcessAdvances(b, list[0], n, true);
      ProcessAllAdvances(b, list[1..], KH.ProcessChild(b, list[0], n).next);
    }
  }

  lemma CallAdvances(b: Backend, args: seq<Arg>, n: nat)
    ensures GenerateKeyCall(b, args, n).1 >= n
  {
    if AllSuit(GENERATE_KEY_TYPES, args) {
      CallIsProcess(b, args, n);
      if TreeOf(args).Ok? {
        ProcessAdvances(b, TreeOf(args).value, n, false);
      }
    }
  }

  /** Later histories have generated no fewer keys. */
  lemma {:induction false} StreamAdvances(b: Backend, calls: seq<Call>, i: nat, j: nat)
    requires i <= j <= |calls|
    ensures KeysGenerated(b, calls[..i]) <= KeysGenerated(b, calls[..j])
    decreases j - i
  {
    if i < j {
      StreamAdvances(b, calls, i, j - 1);
      assert calls[..j][..j - 1] == calls[..j - 1] && calls[..j][j - 1] == calls[j - 1];
      CallAdvances(b, calls[j - 1].args, KeysGenerated(b, calls[..j - 1]));
    }
  }

  /** The i-th call of a history takes the key at the position. */
  predicate Takes(b: Backend, calls: seq<Call>, i: nat, p: nat) {
    i < |calls| && KeysGenerated(b, calls[..i]) <= p < KeysGenerated(b, calls[..i + 1])
  }

  /** What a generateKey call takes is exactly what its tree's nodes are given, up to the first faulty one. */
  lemma TakesExactly(b: Backend, calls: seq<Call>, i: nat, tree: KR.KeyRequest)
    requires Lawful(b) && i < |calls| && calls[i] == Call(Methods, GENERATE_KEY, ArgsOf(tree))
    requires KP.PartsFit(b, tree, KeysGenerated(b, calls[..i]))
    ensures forall p: nat :: Takes(b, calls, i, p) <==>
              KL.IsMade(b, KP.Sites(tree, KeysGenerated(b, calls[..i]), false), p)
  {
    var n := KeysGenerated(b, calls[..i]);
    assert calls[..i + 1][..i] == calls[..i] && calls[..i + 1][i] == calls[i];
    ArgumentsAreTree(ArgsOf(tree), tree);
    CallIsProcess(b, ArgsOf(tree), n);
    StreamOfTree(b, tree, n);
    KL.SitePositions(tree, n, false);
    KL.MadeExactly(b, KP.Sites(tree, n, false), n);
  }

  /** Any other call takes none. */
  lemma OthersTakeNothing(b: Backend, calls: seq<Call>, i: nat)
    requires i < |calls| && !(calls[i].table.Methods? && calls[i].name == GENERATE_KEY)
    ensures forall p: nat :: !Takes(b, calls, i, p)
  {
    assert calls[..i + 1][..i] == calls[..i] && calls[..i + 1][i] == calls[i];
  }

  lemma StreamOfTree(b: Backend, tree: KR.KeyRequest, n: nat)
    requires Lawful(b) && KP.PartsFit(b, tree, n)
    ensures KH.Process(b, tree, n, false).next == n + KP.KeysUntilFault(b, KP.Sites(tree, n, false))
  {
    if KH.IsListType(tree.kind) {
      KP.ListRequest(b, tree, n, false);
    } else {
      KP.LeafRequest(b, tree, n);
      LeafKeys(b, tree, n);
    }
  }

  lemma LeafKeys(b: Backend, tree: KR.KeyRequest, n: nat)
    requires !KH.IsListType(tree.kind)
    ensures KP.Sites(tree, n, false) == [KP.Site(tree, n, false)]
    ensures KP.KeysUntilFault(b, [KP.Site(tree, n, false)])
         == if KP.Fault(b, KP.Site(tree, n, false)).Some? then 0 else KP.Generated(tree)
  {
    assert [KP.Site(tree, n, false)][1..] == [] && KP.KeysUntilFault(b, []) == 0;
  }

  /** Over any run, no two calls take the same key; what was taken before the run stays taken. */
  lemma NeverShared(b: Backend, s: State, events: seq<Event>, i: nat, j: nat)
    requires IsSafe(s) && i < j < |Run(b, s, events).calls|
    ensures s.calls <= Run(b, s, events).calls
    ensures forall p: nat :: !(Takes(b, Run(b, s, events).calls, i, p) && Takes(b, Run(b, s, events).calls, j, p))
  {
    RunSafe(b, s, events);
    StreamAdvances(b, Run(b, s, events).calls, i + 1, j);
  }
}
