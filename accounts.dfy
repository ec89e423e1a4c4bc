/**
 * An HD-wallet account: an ordered list of derivation chains (by convention
 * external = 0, internal = 1). The account answers membership and derivation
 * queries across its chains in order, persists and restores them as
 * `{k, map, node}` records, and commits the result of a gap-limit discovery
 * on one chain by cloning it, trimming the clone and replacing one slot.
 */
module Accounts {
  import opened Results
  import opened Keys
  import opened Chains

  /** The persisted form of one chain: its newest index, its address map and its root node. */
  datatype ChainRecord = ChainRecord(k: int, indexOf: map<string, int>, node: Node)

  /**
   * What the asynchronous gap-limit scan reports: an error, or how many of
   * the scanned addresses lead up to the last used one and how many it checked.
   */
  datatype DiscoveryOutcome = Failed(reason: string) | Found(used: int, checked: int)

  /** What `discoverChain` hands to its completion callback. */
  datatype Completion = Completed | Aborted(error: Error)

  /** How many addresses the commit pops: all unused ones but the first. */
  function TrimCount(used: int, checked: int): nat {
    if checked - used > 1 then checked - used - 1 else 0
  }

  /**
   * The chain state a successful discovery commits: the scanned clone,
   * advanced `advance` times, with `TrimCount(used, checked)` addresses popped.
   */
  function Committed(s: ChainState, node: Node, addressFn: AddressFn, advance: nat, used: int, checked: int): ChainState {
    Shrunk(Advanced(s, node, addressFn, advance), TrimCount(used, checked))
  }

  /** The escalation parent for chain `j`: `parents[j]` when given, nothing otherwise. */
  function ParentFor(parents: Option<seq<Node>>, j: int): Option<Node> {
    if parents.Some? && 0 <= j < |parents.value| then Some(parents.value[j]) else None
  }

  /** Some chain of `cs` knows address `a`. */
  function AnyFinds(cs: seq<Chain>, a: string): (r: bool)
    reads cs
    ensures r <==> exists j :: 0 <= j < |cs| && a in cs[j].indexOf
  {
    if cs == [] then false
    else cs[0].Find(a).Some? || AnyFinds(cs[1..], a)
  }

  /** The addresses of every chain of `cs`, chain after chain. */
  function Concat(cs: seq<Chain>): (r: seq<string>)
    reads cs
    ensures forall x :: x in r <==> exists j :: 0 <= j < |cs| && x in cs[j].addresses
  {
    if cs == [] then []
    else
      var rest := Concat(cs[1..]);
      assert forall x :: x in rest <==> exists j :: 1 <= j < |cs| && x in cs[j].addresses by {
        forall x | x in rest ensures exists j :: 1 <= j < |cs| && x in cs[j].addresses {
          var j :| 0 <= j < |cs[1..]| && x in cs[1..][j].addresses;
          assert cs[j + 1] == cs[1..][j];
        }
      }
      cs[0].GetAll() + rest
  }

  /** The persisted record of every chain of `cs`, in order. */
  function Records(cs: seq<Chain>): (r: seq<ChainRecord>)
    reads cs
    ensures |r| == |cs|
    ensures forall j :: 0 <= j < |cs| ==> r[j] == ChainRecord(cs[j].k, cs[j].indexOf, cs[j].node)
  {
    if cs == [] then []
    else [ChainRecord(cs[0].k, cs[0].indexOf, cs[0].node)] + Records(cs[1..])
  }

  /** The chains' addresses appear chain by chain: those of chain `j` sit between those of the chains before and after it. */
  lemma {:induction false} ConcatSplit(cs: seq<Chain>, j: int)
    requires 0 <= j < |cs|
    ensures Concat(cs) == Concat(cs[..j]) + cs[j].addresses + Concat(cs[j + 1..])
  {
    if j > 0 {
      ConcatSplit(cs[1..], j - 1);
      assert cs[1..][..j - 1] == cs[..j][1..];
      assert cs[1..][j - 1] == cs[j];
      assert cs[1..][j..] == cs[j + 1..];
    } else {
      assert cs[..0] == [];
    }
  }

  /**
   * The address map's keys, ordered by derivation index: how a chain's
   * address list is rebuilt from its persisted map.
   */
  method SortedKeys(m: map<string, int>) returns (s: seq<string>)
    ensures IsIndexOrder(s, m)
  {
    s := [];
    var rest := m.Keys;
    while rest != {}
      invariant rest <= m.Keys
      invariant IsIndexOrder(s, m - rest)
      decreases rest
    {
      var x :| x in rest;
      var p := 0;
      while p < |s| && m[s[p]] <= m[x]
        invariant 0 <= p <= |s|
        invariant forall i :: 0 <= i < p ==> m[s[i]] <= m[x]
      {
        p := p + 1;
      }
      assert forall i :: p <= i < |s| ==> m[x] < m[s[i]] by {
        if p < |s| {
          assert m[x] < m[s[p]];
        }
      }
      InsertKeepsIndexOrder(s, m - rest, x, m[x], p);
      assert (m - rest)[x := m[x]] == m - (rest - {x});
      s := InsertAt(s, x, p);
      rest := rest - {x};
    }
    assert m - rest == m;
  }

  /** Whether the two chains hold the same root, address function and state. */
  ghost predicate SameChain(c: Chain, d: Chain)
    reads c, d
  {
    c.node == d.node && c.addressFn == d.addressFn && c.State() == d.State()
  }

  /** No chain object occupies two slots. */
  ghost predicate DistinctChains(cs: seq<Chain>) {
    forall j, l :: 0 <= j < l < |cs| ==> cs[j] != cs[l]
  }

  /** The scan's effect on its working copy: `n` calls of `next`. */
  method AdvanceWorkingCopy(chain: Chain, n: nat)
    modifies chain
    ensures chain.State() == Advanced(old(chain.State()), chain.node, chain.addressFn, n)
  {
    var done := 0;
    while done < n
      invariant 0 <= done <= n
      invariant chain.State() == Advanced(old(chain.State()), chain.node, chain.addressFn, done)
    {
      var _ := chain.Next();
      done := done + 1;
    }
  }

  class Account {
    var chains: seq<Chain>

    constructor (chains: seq<Chain>)
      ensures this.chains == chains
    {
      this.chains := chains;
    }

    /**
     * Restores an account from one persisted record per chain: each chain
     * keeps the record's node, `k` and map, and its addresses are the map's
     * keys ordered by index. Saving it again yields the records back.
     */
    static method FromJSON(json: seq<ChainRecord>, addressFn: AddressFn) returns (acc: Account)
      ensures fresh(acc) && |acc.chains| == |json|
      ensures forall j :: 0 <= j < |json| ==> fresh(acc.chains[j])
      ensures DistinctChains(acc.chains)
      ensures forall j :: 0 <= j < |json| ==>
                && acc.chains[j].node == json[j].node
                && acc.chains[j].addressFn == addressFn
                && acc.chains[j].k == json[j].k
                && acc.chains[j].indexOf == json[j].indexOf
                && IsIndexOrder(acc.chains[j].addresses, json[j].indexOf)
      ensures acc.ToJSON() == json
    {
      var cs: seq<Chain> := [];
      var j := 0;
      while j < |json|
        invariant 0 <= j <= |json| && |cs| == j
        invariant DistinctChains(cs)
        invariant forall l :: 0 <= l < j ==>
                    && fresh(cs[l])
                    && cs[l].node == json[l].node
                    && cs[l].addressFn == addressFn
                    && cs[l].k == json[l].k
                    && cs[l].indexOf == json[l].indexOf
                    && IsIndexOrder(cs[l].addresses, json[l].indexOf)
      {
        var chain := new Chain(json[j].node, json[j].k, addressFn);
        chain.indexOf := json[j].indexOf;
        var sorted := SortedKeys(chain.indexOf);
        chain.addresses := sorted;
        cs := cs + [chain];
        j := j + 1;
      }
      acc := new Account(cs);
    }

    /** A new account whose chains are new objects, each equal to the original's chain in the same slot. */
    method Clone() returns (c: Account)
      ensures fresh(c) && |c.chains| == |chains|
      ensures forall j :: 0 <= j < |chains| ==> fresh(c.chains[j]) && SameChain(c.chains[j], chains[j])
      ensures DistinctChains(c.chains)
    {
      var copies: seq<Chain> := [];
      var j := 0;
      while j < |chains|
        invariant 0 <= j <= |chains| && |copies| == j
        invariant DistinctChains(copies)
        invariant forall l :: 0 <= l < j ==> fresh(copies[l]) && SameChain(copies[l], chains[l])
      {
        var copy := chains[j].Clone();
        copies := copies + [copy];
        j := j + 1;
      }
      c := new Account(copies);
    }

    /** Whether any chain knows address `a`. */
    function ContainsAddress(a: string): (r: bool)
      reads this, chains
      ensures r <==> exists j :: 0 <= j < |chains| && a in chains[j].indexOf
    {
      AnyFinds(chains, a)
    }

    /**
     * The key node of address `a`, from the first chain that knows it, with
     * `parents[j]` (when given) as chain `j`'s escalation parent; `None` when
     * no chain knows `a`.
     */
    method Derive(a: string, parents: Option<seq<Node>>) returns (r: Option<Node>)
      ensures r.None? <==> !ContainsAddress(a)
      ensures forall j :: (0 <= j < |chains| && a in chains[j].indexOf &&
                          (forall l :: 0 <= l < j ==> a !in chains[l].indexOf)) ==>
                r == chains[j].Derive(a, ParentFor(parents, j))
    {
      r := None;
      var j := 0;
      while j < |chains|
        invariant 0 <= j <= |chains|
        invariant forall l :: 0 <= l < j ==> a !in chains[l].indexOf
        invariant r.None?
      {
        r := chains[j].Derive(a, ParentFor(parents, j));
        if r.Some? {
          assert a in chains[j].indexOf;
          return;
        }
        j := j + 1;
      }
    }

    /**
     * Commits a gap-limit discovery on chain `i`. The scan works on a clone
     * of the chain, advanced `advance` times; the live chains are never
     * touched. On an error the error is forwarded and nothing changes; on
     * success the clone, trimmed to one unused address past the last used
     * one, replaces slot `i` and no other.
     */
    method DiscoverChain(i: int, advance: nat, outcome: DiscoveryOutcome) returns (r: Completion)
      modifies this
      ensures forall j :: 0 <= j < |old(chains)| ==> old(chains)[j].State() == old(chains[j].State())
      ensures !(0 <= i < |old(chains)|) ==> r == Aborted(InvalidChainIndex) && chains == old(chains)
      ensures 0 <= i < |old(chains)| && outcome.Failed? ==>
                r == Aborted(DiscoveryFailed(outcome.reason)) && chains == old(chains)
      ensures 0 <= i < |old(chains)| && outcome.Found? ==>
                && r == Completed
                && |chains| == |old(chains)|
                && chains == old(chains)[i := chains[i]]
                && fresh(chains[i])
                && chains[i].node == old(chains[i].node)
                && chains[i].addressFn == old(chains[i].addressFn)
                && chains[i].State() == Committed(old(chains[i].State()), chains[i].node, chains[i].addressFn,
                                                  advance, outcome.used, outcome.checked)
    {
      if !(0 <= i < |chains|) {
        return Aborted(InvalidChainIndex);
      }
      var chain := chains[i].Clone();
      AdvanceWorkingCopy(chain, advance);
      match outcome
      case Failed(reason) =>
        return Aborted(DiscoveryFailed(reason));
      case Found(used, checked) =>
        ghost var scanned := chain.State();
        var unused := checked - used;
        var j := 1;
        while j < unused
          invariant 1 <= j <= if unused > 1 then unused else 1
          invariant chains == old(chains)
          invariant chain.State() == Shrunk(scanned, j - 1)
        {
          var _ := chain.Pop();
          j := j + 1;
        }
        chains := chains[i := chain];
        return Completed;
    }

    /** Every address of the account: chain order, then derivation order within a chain. */
    function GetAllAddresses(): (r: seq<string>)
      reads this, chains
      ensures forall x :: x in r <==> exists j :: 0 <= j < |chains| && x in chains[j].addresses
    {
      Concat(chains)
    }

    /** The live chain object in slot `i`, if there is one. */
    function GetChain(i: int): (r: Option<Chain>)
      reads this
      ensures r.Some? <==> 0 <= i < |chains|
      ensures r.Some? ==> r.value == chains[i]
    {
      if 0 <= i < |chains| then Some(chains[i]) else None
    }

    /** The live chain objects themselves, in slot order. */
    function GetChains(): (r: seq<Chain>)
      reads this
      ensures r == chains
    {
      chains
    }

    /** The newest address of chain `i`. */
    function GetChainAddress(i: int): (r: Result<string>)
      reads this, chains
      ensures r.Ok? <==> 0 <= i < |chains| && chains[i].addresses != []
      ensures r.Ok? ==> r.value == chains[i].addresses[|chains[i].addresses| - 1]
      ensures !(0 <= i < |chains|) ==> r == Err(InvalidChainIndex)
      ensures 0 <= i < |chains| && chains[i].addresses == [] ==> r == Err(EmptyChain)
    {
      if 0 <= i < |chains| then chains[i].Get() else Err(InvalidChainIndex)
    }

    /** Whether chain `i`, and only chain `i`, knows address `a`. */
    function IsChainAddress(i: int, a: string): (r: Result<bool>)
      reads this, chains
      ensures r.Ok? <==> 0 <= i < |chains|
      ensures r.Ok? ==> (r.value <==> a in chains[i].indexOf)
      ensures r.Err? ==> r.error == InvalidChainIndex
    {
      if 0 <= i < |chains| then Ok(chains[i].Find(a).Some?) else Err(InvalidChainIndex)
    }

    /** Derives the next address of chain `i`, which alone grows by that one address. */
    method NextChainAddress(i: int) returns (r: Result<string>)
      modifies if 0 <= i < |chains| then {chains[i]} else {}
      ensures r.Ok? <==> 0 <= i < |chains|
      ensures r.Err? ==> r.error == InvalidChainIndex
      ensures r.Ok? ==>
                && r.value == AddressAt(chains[i].node, chains[i].addressFn, old(chains[i].k) + 1)
                && chains[i].State() == Grow(old(chains[i].State()), r.value)
                && GetChainAddress(i) == Ok(r.value)
      ensures forall j :: 0 <= j < |chains| && !(0 <= i < |chains| && chains[j] == chains[i]) ==>
                chains[j].State() == old(chains[j].State())
    {
      if !(0 <= i < |chains|) {
        return Err(InvalidChainIndex);
      }
      var a := chains[i].Next();
      r := Ok(a);
    }

    /** One persisted record per chain, in slot order, with each chain's `k`, map and node. */
    function ToJSON(): (r: seq<ChainRecord>)
      reads this, chains
      ensures |r| == |chains|
      ensures forall j :: 0 <= j < |chains| ==> r[j] == ChainRecord(chains[j].k, chains[j].indexOf, chains[j].node)
    {
      Records(chains)
    }
  }

  /**
   * Cloning an account and then advancing one of the original's chains leaves
   * every chain of the clone as it was at the moment of cloning, so the two
   * accounts diverge.
   */
  method CloneThenAdvance(acc: Account, i: int) returns (copy: Account, a: Result<string>)
    requires 0 <= i < |acc.chains|
    modifies acc.chains[i]
    ensures fresh(copy) && |copy.chains| == |acc.chains|
    ensures forall j :: 0 <= j < |copy.chains| ==> copy.chains[j].State() == old(acc.chains[j].State())
    ensures a.Ok? && acc.chains[i].State() == Grow(copy.chains[i].State(), a.value)
    ensures |acc.chains[i].addresses| == |copy.chains[i].addresses| + 1
  {
    copy := acc.Clone();
    a := acc.NextChainAddress(i);
  }

  /** A chain knows an address exactly when it is one of chain `i`'s addresses for some `i`. */
  lemma {:induction false} ContainsAddressIffChainAddress(acc: Account, a: string)
    ensures acc.ContainsAddress(a) <==> exists i :: 0 <= i < |acc.chains| && acc.IsChainAddress(i, a) == Ok(true)
  {
    if acc.ContainsAddress(a) {
      var i :| 0 <= i < |acc.chains| && a in acc.chains[i].indexOf;
      assert acc.IsChainAddress(i, a) == Ok(true);
    }
  }

  /**
   * With the scan's own accounting (the clone advanced `checked - 1` times
   * past its newest address, which the scan also counts), a successful
   * commit keeps the old addresses and the first `used` derived ones: one
   * unused address past the last used one.
   */
  lemma {:induction false} DiscoveryKeepsThroughLastUsed(s: ChainState, node: Node, addressFn: AddressFn, used: int, checked: int)
    requires 0 <= used < checked
    ensures var t := Committed(s, node, addressFn, checked - 1, used, checked);
      && t.k == s.k + used
      && t.addresses == s.addresses + Derivations(s, node, addressFn, checked - 1)[..used]
  {
    var adv := Advanced(s, node, addressFn, checked - 1);
    AdvancedShape(s, node, addressFn, checked - 1);
    ShrunkShape(adv, TrimCount(used, checked));
    assert TrimCount(used, checked) == checked - used - 1;
  }

  /** A discovery that finds nothing used leaves the chain exactly as it was. */
  lemma {:induction false} UneventfulDiscoveryRestores(s: ChainState, node: Node, addressFn: AddressFn, checked: int)
    requires checked >= 1
    requires UnknownDerivations(s, node, addressFn, checked - 1)
    ensures Committed(s, node, addressFn, checked - 1, 0, checked) == s
  {
    ShrunkUndoesAdvanced(s, node, addressFn, checked - 1);
  }

  /**
   * A discovery whose last used address is the chain's newest one (the
   * first address the scan checks) keeps one unused address past it, the
   * first one derived: the chain ends one `next` further on.
   */
  lemma {:induction false} EventfulDiscoveryAdvancesOne(s: ChainState, node: Node, addressFn: AddressFn, checked: int)
    requires checked >= 2
    requires FreshDerivations(s, node, addressFn, checked - 1)
    ensures Committed(s, node, addressFn, checked - 1, 1, checked) ==
            Grow(s, AddressAt(node, addressFn, s.k + 1))
  {
    var n := checked - 2;
    var a := AddressAt(node, addressFn, s.k + 1);
    var g := Grow(s, a);
    AdvancedFirst(s, node, addressFn, n);
    var d := Derivations(s, node, addressFn, n + 1);
    var e := Derivations(g, node, addressFn, n);
    forall j | 0 <= j < n ensures e[j] !in g.indexOf {
      assert e[j] == d[j + 1];
      assert d[0] == a;
    }
    ShrunkUndoesAdvanced(g, node, addressFn, n);
  }
}
