/**
 * One derivation chain of an account: the chain's root node, the index of
 * its newest address `k`, the map from each address to its derivation index,
 * and the addresses in derivation order.
 *
 * The chain's own implementation is not part of this model. The class below
 * gives it exactly the behaviour the account layer relies on: `Next` appends
 * one derived address, `Pop` removes the newest one, `Find`, `Get`, `GetAll`
 * and `Derive` are queries, and `Clone` is a deep copy. The values of type
 * `ChainState` and the functions on them specify those methods, and the
 * lemmas after them state what sequences of `Next` and `Pop` do.
 */
module Chains {
  import opened Results
  import opened Keys

  /** The mutable part of a chain, as a value. */
  datatype ChainState = ChainState(k: int, indexOf: map<string, int>, addresses: seq<string>)

  /** The address a chain rooted at `node` derives for derivation index `index`. */
  function AddressAt(node: Node, addressFn: AddressFn, index: int): string {
    addressFn(Child(node, index))
  }

  /** The state after one `next` that derived address `a`. */
  function Grow(s: ChainState, a: string): ChainState {
    ChainState(s.k + 1, s.indexOf[a := s.k + 1], s.addresses + [a])
  }

  /** The state after one `pop`; popping an empty chain changes nothing. */
  function Shrink(s: ChainState): ChainState {
    if s.addresses == [] then s
    else
      var last := s.addresses[|s.addresses| - 1];
      ChainState(s.k - 1, s.indexOf - {last}, s.addresses[..|s.addresses| - 1])
  }

  /** The state after `n` calls of `next` on a chain rooted at `node`. */
  function Advanced(s: ChainState, node: Node, addressFn: AddressFn, n: nat): ChainState {
    if n == 0 then s
    else
      var t := Advanced(s, node, addressFn, n - 1);
      Grow(t, AddressAt(node, addressFn, t.k + 1))
  }

  /** The state after `n` calls of `pop`. */
  function Shrunk(s: ChainState, n: nat): ChainState {
    if n == 0 then s else Shrink(Shrunk(s, n - 1))
  }

  /** The `n` addresses that `n` calls of `next` derive from state `s`, in order. */
  function Derivations(s: ChainState, node: Node, addressFn: AddressFn, n: nat): seq<string> {
    seq(n, j => AddressAt(node, addressFn, s.k + 1 + j))
  }

  function Elems(s: seq<string>): set<string> {
    set x | x in s
  }

  function Min(a: int, b: int): int {
    if a <= b then a else b
  }

  /** No address occurs twice in `s`. */
  predicate Distinct(s: seq<string>) {
    forall i, j :: 0 <= i < j < |s| ==> s[i] != s[j]
  }

  /**
   * `s` lists the key set of `m` exactly once each, ordered by non-decreasing
   * map value: the order in which a chain is rebuilt from its persisted map.
   */
  predicate IsIndexOrder(s: seq<string>, m: map<string, int>) {
    && (forall i :: 0 <= i < |s| ==> s[i] in m)
    && (forall x :: x in m ==> x in s)
    && Distinct(s)
    && (forall i, j :: 0 <= i < j < |s| ==> m[s[i]] <= m[s[j]])
  }

  /** No two addresses share a derivation index. */
  predicate Injective(m: map<string, int>) {
    forall x, y :: x in m && y in m && x != y ==> m[x] != m[y]
  }

  /**
   * The chain invariant of normal operation: the addresses are the map's keys
   * in index order, no index is used twice, and no index exceeds `k`.
   */
  predicate Consistent(s: ChainState) {
    && IsIndexOrder(s.addresses, s.indexOf)
    && Injective(s.indexOf)
    && (forall x :: x in s.indexOf ==> s.indexOf[x] <= s.k)
  }

  /** None of the next `n` derived addresses is already known to the chain. */
  predicate UnknownDerivations(s: ChainState, node: Node, addressFn: AddressFn, n: nat) {
    forall j :: 0 <= j < n ==> Derivations(s, node, addressFn, n)[j] !in s.indexOf
  }

  /** The next `n` derived addresses are new to the chain and pairwise different. */
  predicate FreshDerivations(s: ChainState, node: Node, addressFn: AddressFn, n: nat) {
    && UnknownDerivations(s, node, addressFn, n)
    && Distinct(Derivations(s, node, addressFn, n))
  }

  class Chain {
    const node: Node
    const addressFn: AddressFn
    var k: int
    var indexOf: map<string, int>
    var addresses: seq<string>

    function State(): ChainState
      reads this
    {
      ChainState(k, indexOf, addresses)
    }

    /** A chain rooted at `node` whose newest index is `k`, with no address yet. */
    constructor (node: Node, k: int, addressFn: AddressFn)
      ensures this.node == node && this.addressFn == addressFn
      ensures State() == ChainState(k, map[], [])
    {
      this.node := node;
      this.addressFn := addressFn;
      this.k := k;
      this.indexOf := map[];
      this.addresses := [];
    }

    /** The derivation index of `a`, if the chain knows it. */
    function Find(a: string): (r: Option<int>)
      reads this
      ensures r.Some? <==> a in indexOf
      ensures r.Some? ==> r.value == indexOf[a]
    {
      if a in indexOf then Some(indexOf[a]) else None
    }

    /** The newest address; an empty chain has none. */
    function Get(): (r: Result<string>)
      reads this
      ensures r.Ok? <==> addresses != []
      ensures r.Ok? ==> r.value == addresses[|addresses| - 1]
      ensures r.Err? ==> r.error == EmptyChain
    {
      if addresses == [] then Err(EmptyChain) else Ok(addresses[|addresses| - 1])
    }

    /** Every address of the chain, in derivation order. */
    function GetAll(): (r: seq<string>)
      reads this
      ensures r == addresses
    {
      addresses
    }

    /**
     * The key node of a known address: the child at the address's index of
     * `parent` when one is supplied (escalation to a private parent), of the
     * chain's own root otherwise; `None` for an unknown address.
     */
    function Derive(a: string, parent: Option<Node>): (r: Option<Node>)
      reads this
      ensures r.Some? <==> a in indexOf
      ensures r.Some? && parent.Some? ==> r.value == Child(parent.value, indexOf[a])
      ensures r.Some? && parent.None? ==> r.value == Child(node, indexOf[a])
    {
      match Find(a)
      case None => None
      case Some(index) => Some(Child(if parent.Some? then parent.value else node, index))
    }

    /** Derives the address after the newest one, records it and returns it. */
    method Next() returns (a: string)
      modifies this
      ensures a == AddressAt(node, addressFn, old(k) + 1)
      ensures State() == Grow(old(State()), a)
    {
      a := AddressAt(node, addressFn, k + 1);
      k := k + 1;
      indexOf := indexOf[a := k];
      addresses := addresses + [a];
    }

    /** Removes the newest address and returns it; an empty chain stays as it is. */
    method Pop() returns (a: Option<string>)
      modifies this
      ensures State() == Shrink(old(State()))
      ensures old(addresses) == [] ==> a == None
      ensures old(addresses) != [] ==> a == Some(old(addresses)[|old(addresses)| - 1])
    {
      if addresses == [] {
        a := None;
      } else {
        var last := addresses[|addresses| - 1];
        addresses := addresses[..|addresses| - 1];
        indexOf := indexOf - {last};
        k := k - 1;
        a := Some(last);
      }
    }

    /** A new chain with the same root, address function and state. */
    method Clone() returns (c: Chain)
      ensures fresh(c)
      ensures c.node == node && c.addressFn == addressFn
      ensures c.State() == State()
    {
      c := new Chain(node, k, addressFn);
      c.indexOf := indexOf;
      c.addresses := addresses;
    }
  }

  lemma {:induction false} DerivationsSnoc(s: ChainState, node: Node, addressFn: AddressFn, n: nat)
    requires n > 0
    ensures Derivations(s, node, addressFn, n) ==
            Derivations(s, node, addressFn, n - 1) + [AddressAt(node, addressFn, s.k + n)]
  {
  }

  /** `n` calls of `next` append the derivations at indices `k + 1` to `k + n`, in that order. */
  lemma {:induction false} AdvancedList(s: ChainState, node: Node, addressFn: AddressFn, n: nat)
    ensures Advanced(s, node, addressFn, n).k == s.k + n
    ensures Advanced(s, node, addressFn, n).addresses == s.addresses + Derivations(s, node, addressFn, n)
  {
    if n == 0 {
      assert Derivations(s, node, addressFn, 0) == [];
    } else {
      AdvancedList(s, node, addressFn, n - 1);
      DerivationsSnoc(s, node, addressFn, n);
    }
  }

  /** `n` calls of `next` add the derived addresses to the map and keep every other entry. */
  lemma {:induction false} AdvancedMap(s: ChainState, node: Node, addressFn: AddressFn, n: nat)
    ensures Advanced(s, node, addressFn, n).indexOf.Keys == s.indexOf.Keys + Elems(Derivations(s, node, addressFn, n))
    ensures forall x :: x in s.indexOf && x !in Derivations(s, node, addressFn, n) ==>
              Advanced(s, node, addressFn, n).indexOf[x] == s.indexOf[x]
  {
    var d := Derivations(s, node, addressFn, n);
    if n == 0 {
      assert d == [];
      assert Elems(d) == {};
    } else {
      AdvancedList(s, node, addressFn, n - 1);
      AdvancedMap(s, node, addressFn, n - 1);
      DerivationsSnoc(s, node, addressFn, n);
      var d' := Derivations(s, node, addressFn, n - 1);
      var a := AddressAt(node, addressFn, s.k + n);
      assert Elems(d) == Elems(d') + {a};
    }
  }

  /**
   * `n` calls of `next` add `n` addresses, the derivations at indices
   * `k + 1` to `k + n` in that order, and leave every other entry of the map as it was.
   */
  lemma {:induction false} AdvancedShape(s: ChainState, node: Node, addressFn: AddressFn, n: nat)
    ensures Advanced(s, node, addressFn, n).k == s.k + n
    ensures Advanced(s, node, addressFn, n).addresses == s.addresses + Derivations(s, node, addressFn, n)
    ensures Advanced(s, node, addressFn, n).indexOf.Keys == s.indexOf.Keys + Elems(Derivations(s, node, addressFn, n))
    ensures forall x :: x in s.indexOf && x !in Derivations(s, node, addressFn, n) ==>
              Advanced(s, node, addressFn, n).indexOf[x] == s.indexOf[x]
  {
    AdvancedList(s, node, addressFn, n);
    AdvancedMap(s, node, addressFn, n);
  }

  lemma {:induction false} ElemsCons(x: string, s: seq<string>)
    ensures Elems([x] + s) == {x} + Elems(s)
  {
  }

  /** `n` calls of `pop` remove the newest `min(n, |addresses|)` addresses and lower `k` by that many. */
  lemma {:induction false} ShrunkList(s: ChainState, n: nat)
    ensures Shrunk(s, n).k == s.k - Min(n, |s.addresses|)
    ensures Shrunk(s, n).addresses == s.addresses[..|s.addresses| - Min(n, |s.addresses|)]
  {
    if n > 0 {
      ShrunkList(s, n - 1);
    }
  }

  lemma {:induction false} MapMinusStep(m: map<string, int>, later: set<string>, x: string)
    ensures (m - later) - {x} == m - ({x} + later)
  {
    assert ((m - later) - {x}).Keys == (m - ({x} + later)).Keys;
  }

  /** `n` calls of `pop` drop the newest `min(n, |addresses|)` addresses from the map. */
  lemma {:induction false} ShrunkIndexOf(s: ChainState, n: nat)
    ensures Shrunk(s, n).indexOf == s.indexOf - Elems(s.addresses[|s.addresses| - Min(n, |s.addresses|)..])
  {
    var len := |s.addresses|;
    if n == 0 {
      assert s.addresses[len..] == [];
      assert Elems([]) == {};
      assert s.indexOf - {} == s.indexOf;
    } else {
      ShrunkList(s, n - 1);
      ShrunkIndexOf(s, n - 1);
      var t := Shrunk(s, n - 1);
      if n - 1 < len {
        var last := s.addresses[len - n];
        var later := s.addresses[len - n + 1..];
        assert t.addresses[|t.addresses| - 1] == last;
        assert Shrunk(s, n).indexOf == t.indexOf - {last};
        assert s.addresses[len - n..] == [last] + later;
        ElemsCons(last, later);
        MapMinusStep(s.indexOf, Elems(later), last);
      } else {
        assert t.addresses == [];
      }
    }
  }

  /**
   * `n` calls of `pop` remove the newest `min(n, |addresses|)` addresses,
   * lower `k` by that many, and drop those addresses from the map.
   */
  lemma {:induction false} ShrunkShape(s: ChainState, n: nat)
    ensures Shrunk(s, n).k == s.k - Min(n, |s.addresses|)
    ensures Shrunk(s, n).addresses == s.addresses[..|s.addresses| - Min(n, |s.addresses|)]
    ensures Shrunk(s, n).indexOf == s.indexOf - Elems(s.addresses[|s.addresses| - Min(n, |s.addresses|)..])
  {
    ShrunkList(s, n);
    ShrunkIndexOf(s, n);
  }

  /** Popping as many addresses as `next` derived restores the chain, provided the derived addresses were new. */
  lemma {:induction false} ShrunkUndoesAdvanced(s: ChainState, node: Node, addressFn: AddressFn, n: nat)
    requires UnknownDerivations(s, node, addressFn, n)
    ensures Shrunk(Advanced(s, node, addressFn, n), n) == s
  {
    var t := Advanced(s, node, addressFn, n);
    var d := Derivations(s, node, addressFn, n);
    AdvancedShape(s, node, addressFn, n);
    ShrunkShape(t, n);
    var len := |t.addresses|;
    assert Min(n, len) == n;
    assert t.addresses[..len - n] == s.addresses;
    assert t.addresses[len - n..] == d;
    var u := Shrunk(t, n);
    forall x | x in Elems(d) ensures x !in s.indexOf {
      var j :| 0 <= j < n && d[j] == x;
    }
    assert u.indexOf.Keys == s.indexOf.Keys;
    forall x | x in s.indexOf ensures u.indexOf[x] == s.indexOf[x] {
      assert x !in Elems(d);
    }
    assert u.indexOf == s.indexOf;
  }

  /** Conversely, popping restores the chain only if the derived addresses were new to it. */
  lemma {:induction false} ShrunkRestoresOnlyIfNew(s: ChainState, node: Node, addressFn: AddressFn, n: nat)
    requires Shrunk(Advanced(s, node, addressFn, n), n) == s
    ensures UnknownDerivations(s, node, addressFn, n)
  {
    var t := Advanced(s, node, addressFn, n);
    var d := Derivations(s, node, addressFn, n);
    AdvancedShape(s, node, addressFn, n);
    ShrunkShape(t, n);
    var len := |t.addresses|;
    assert Min(n, len) == n;
    assert t.addresses[len - n..] == d;
    forall j | 0 <= j < n ensures d[j] !in s.indexOf {
      assert d[j] in Elems(d);
      assert d[j] !in Shrunk(t, n).indexOf;
    }
  }

  /** One `pop` undoes one `next` exactly when the address `next` derived was new to the chain. */
  lemma {:induction false} PopUndoesNext(s: ChainState, a: string)
    ensures Shrink(Grow(s, a)) == s <==> a !in s.indexOf
  {
    var g := Grow(s, a);
    assert g.addresses[..|g.addresses| - 1] == s.addresses;
    if a !in s.indexOf {
      assert Shrink(g).indexOf == s.indexOf;
    } else {
      assert a !in Shrink(g).indexOf;
    }
  }

  /** The first `next` of a run of `n + 1` is a run of `n` from the grown state. */
  lemma {:induction false} AdvancedFirst(s: ChainState, node: Node, addressFn: AddressFn, n: nat)
    ensures Advanced(s, node, addressFn, n + 1) ==
            Advanced(Grow(s, AddressAt(node, addressFn, s.k + 1)), node, addressFn, n)
  {
    if n > 0 {
      AdvancedFirst(s, node, addressFn, n - 1);
    }
  }

  /** `s` with `x` inserted at position `p`. */
  function InsertAt(s: seq<string>, x: string, p: int): (t: seq<string>)
    requires 0 <= p <= |s|
    ensures |t| == |s| + 1 && t[p] == x
    ensures forall i :: 0 <= i < p ==> t[i] == s[i]
    ensures forall i :: p < i < |t| ==> t[i] == s[i - 1]
  {
    s[..p] + [x] + s[p..]
  }

  /** One pair of positions of an insertion that keeps an index order. */
  lemma {:induction false} InsertKeepsPair(s: seq<string>, sub: map<string, int>, x: string, v: int, p: int, i: int, j: int)
    requires IsIndexOrder(s, sub) && x !in sub && 0 <= p <= |s|
    requires forall i :: 0 <= i < p ==> sub[s[i]] <= v
    requires forall i :: p <= i < |s| ==> v < sub[s[i]]
    requires 0 <= i < j <= |s|
    ensures InsertAt(s, x, p)[i] != InsertAt(s, x, p)[j]
    ensures sub[x := v][InsertAt(s, x, p)[i]] <= sub[x := v][InsertAt(s, x, p)[j]]
  {
    var t := InsertAt(s, x, p);
    var i' := if i < p then i else i - 1;
    var j' := if j < p then j else j - 1;
    if i == p {
      assert t[j] == s[j'] && s[j'] in sub;
    } else if j == p {
      assert t[i] == s[i'] && s[i'] in sub;
    } else {
      assert t[i] == s[i'] && t[j] == s[j'] && i' < j';
    }
  }

  /**
   * Inserting a new address `x` with index `v` at a position `p` that
   * separates the indices up to `v` from the larger ones keeps an index order.
   */
  lemma {:induction false} InsertKeepsIndexOrder(s: seq<string>, sub: map<string, int>, x: string, v: int, p: int)
    requires IsIndexOrder(s, sub) && x !in sub && 0 <= p <= |s|
    requires forall i :: 0 <= i < p ==> sub[s[i]] <= v
    requires forall i :: p <= i < |s| ==> v < sub[s[i]]
    ensures IsIndexOrder(InsertAt(s, x, p), sub[x := v])
  {
    var t := InsertAt(s, x, p);
    var m := sub[x := v];
    forall y | y in m ensures y in t {
      if y != x {
        var i :| 0 <= i < |s| && s[i] == y;
        if i < p { assert t[i] == y; } else { assert t[i + 1] == y; }
      }
    }
    forall i, j | 0 <= i < j < |t| ensures t[i] != t[j] && m[t[i]] <= m[t[j]] {
      InsertKeepsPair(s, sub, x, v, p, i, j);
    }
    assert forall i :: 0 <= i < |t| ==> t[i] in m;
    assert forall y :: y in m ==> y in t;
    assert Distinct(t);
  }

  /** `next` keeps a consistent chain consistent when the derived address is new. */
  lemma {:induction false} GrowPreservesConsistent(s: ChainState, a: string)
    requires Consistent(s)
    requires a !in s.indexOf
    ensures Consistent(Grow(s, a))
  {
    var n := |s.addresses|;
    var m := s.indexOf[a := s.k + 1];
    InsertKeepsIndexOrder(s.addresses, s.indexOf, a, s.k + 1, n);
    assert InsertAt(s.addresses, a, n) == s.addresses + [a];
    forall x, y | x in m && y in m && x != y ensures m[x] != m[y] {
      if x != a && y != a {
        assert m[x] == s.indexOf[x] && m[y] == s.indexOf[y];
      }
    }
  }

  /** Dropping the last address of an index order leaves an index order of the rest of the map. */
  lemma {:induction false} IndexOrderDropLast(s: seq<string>, m: map<string, int>)
    requires IsIndexOrder(s, m) && s != []
    ensures IsIndexOrder(s[..|s| - 1], m - {s[|s| - 1]})
  {
    var n := |s|;
    var rest := m - {s[n - 1]};
    forall x | x in rest ensures x in s[..n - 1] {
      var j :| 0 <= j < n && s[j] == x;
      assert j != n - 1;
      assert s[..n - 1][j] == x;
    }
  }

  /** `pop` keeps a consistent chain consistent. */
  lemma {:induction false} ShrinkPreservesConsistent(s: ChainState)
    requires Consistent(s)
    ensures Consistent(Shrink(s))
  {
    if s.addresses != [] {
      var n := |s.addresses|;
      var last := s.addresses[n - 1];
      IndexOrderDropLast(s.addresses, s.indexOf);
      forall x | x in s.indexOf && x != last ensures s.indexOf[x] < s.indexOf[last] {
        var j :| 0 <= j < n && s.addresses[j] == x;
        assert j < n - 1;
      }
    }
  }

  /** The first address of an index order has the smallest index in the map. */
  lemma {:induction false} IndexOrderFirstIsLeast(s: seq<string>, m: map<string, int>, x: string)
    requires IsIndexOrder(s, m) && x in m
    ensures s != [] && m[s[0]] <= m[x]
  {
    var j :| 0 <= j < |s| && s[j] == x;
  }

  /** Dropping the first address of an index order leaves an index order of the rest of the map. */
  lemma {:induction false} IndexOrderTail(s: seq<string>, m: map<string, int>)
    requires IsIndexOrder(s, m) && s != []
    ensures IsIndexOrder(s[1..], m - {s[0]})
  {
    forall x | x in m - {s[0]} ensures x in s[1..] {
      var j :| 0 <= j < |s| && s[j] == x;
      assert j != 0;
      assert s[1..][j - 1] == x;
    }
  }

  /**
   * The index order of an injective map is unique: a chain whose map gives
   * every address its own index is rebuilt to exactly one address list.
   */
  lemma {:induction false} IndexOrderUnique(s1: seq<string>, s2: seq<string>, m: map<string, int>)
    requires Injective(m)
    requires IsIndexOrder(s1, m) && IsIndexOrder(s2, m)
    ensures s1 == s2
  {
    if s1 != [] {
      IndexOrderFirstIsLeast(s2, m, s1[0]);
      IndexOrderFirstIsLeast(s1, m, s2[0]);
      assert s1[0] == s2[0];
      IndexOrderTail(s1, m);
      IndexOrderTail(s2, m);
      IndexOrderUnique(s1[1..], s2[1..], m - {s1[0]});
    }
  }
}
