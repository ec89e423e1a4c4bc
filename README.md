# HD-wallet account layer

A Dafny model of the account layer of a BIP32 wallet helper (`account.js`).
An account owns an ordered list of derivation chains (external = 0,
internal = 1 by convention). Each chain holds its root key node, the index
`k` of its newest address, a map from every address it derived to that
address's derivation index, and the addresses in derivation order. The
account:

- rebuilds its chains from persisted `{k, map, node}` records, ordering each
  chain's addresses by their index in `map`, and saves them back;
- answers membership (`containsAddress`, `isChainAddress`) and key
  derivation (`derive`, with optional private "escalation" parents) across
  its chains in chain order;
- hands out and advances the newest address of one chain;
- commits a gap-limit discovery on one chain: the scan runs on a clone, the
  clone is trimmed to one unused address past the last used one, and the
  trimmed clone replaces exactly one slot of `chains`.

Files:

- `results.dfy` (module `Results`): `Option`, `Result` and the error kinds
  (`InvalidChainIndex`, `EmptyChain`, `DiscoveryFailed`).
- `keys.dfy` (module `Keys`): the opaque key node. `Key(id)` is a node the
  key library produced and `Child(parent, index)` the child it derives. No
  key arithmetic is modelled.
- `chains.dfy` (module `Chains`): the chain as a class with `k`, `indexOf`
  (the persisted `map`; `map` is a Dafny keyword) and `addresses`. Its
  methods are specified by functions on the value `ChainState`: `Grow` for
  one `next`, `Shrink` for one `pop`, `Advanced` and `Shrunk` for runs of
  them. The lemmas state what such runs do and which chain invariant they
  keep. The chain's own source file is not part of this model. The chain
  gets only the behaviour the account layer relies on. `next` derives the
  address at index `k + 1` with the address function and records it at that
  index. `pop` undoes one `next` of an address new to the chain.
- `accounts.dfy` (module `Accounts`): the `Account` class. It also holds the
  rebuilding of an address list from a map (`SortedKeys`), the discovery
  outcome and the committed state a discovery leaves (`Committed`).

The asynchronous scan is an input here. `DiscoverChain` receives an outcome,
`Failed(reason)` or `Found(used, checked)`, and the number of times the scan
advanced its working copy (`advance`).

## Model

| member | source | states |
|---|---|---|
| `Chains.Chain.constructor` | account.js:14 | a new chain has the given root, `k` and address function, an empty map and no address |
| `Chains.Chain.Find` | account.js:36 | the index is defined exactly for addresses in the chain's map and is the mapped index |
| `Chains.Chain.Get` | account.js:78 | the newest address; `EmptyChain` exactly when the chain holds no address |
| `Chains.Chain.GetAll` | account.js:72 | the chain's own address list, in derivation order |
| `Chains.Chain.Derive` | account.js:45 | defined exactly for known addresses; the child at the address's index of the escalation parent when one is given, of the chain's root otherwise |
| `Chains.Chain.Next` | account.js:86 | appends the address derived at index `k + 1`, maps it to that index, bumps `k`, and returns it |
| `Chains.Chain.Pop` | account.js:61 | removes the newest address from the list and the map and lowers `k`; an empty chain is left unchanged and `None` is returned |
| `Chains.Chain.Clone` | account.js:54 | a new chain object with the same root, address function, `k`, map and addresses |
| `Chains.AdvancedShape` | account.js:54-56 | `n` calls of `next` append the derivations at indices `k+1..k+n` in order, raise `k` by `n`, and keep every other map entry |
| `Chains.ShrunkShape` | account.js:61 | `n` pops remove the newest `min(n, length)` addresses from the list and the map and lower `k` by as many |
| `Chains.ShrunkUndoesAdvanced` | account.js:59-61 | popping as many addresses as `next` derived restores the chain when the derived addresses were new |
| `Chains.ShrunkRestoresOnlyIfNew` | account.js:59-61 | conversely, if popping as many addresses as `next` derived restores the chain, the derived addresses were new to it |
| `Chains.PopUndoesNext` | account.js:61 | one `pop` after one `next` restores the chain exactly when the derived address was new to it |
| `Chains.GrowPreservesConsistent` | account.js:17-20 | `next` of a new address keeps a chain's addresses equal to its map's keys in index order, indices distinct and at most `k` |
| `Chains.ShrinkPreservesConsistent` | account.js:17-20 | `pop` keeps the same invariant |
| `Chains.IndexOrderUnique` | account.js:18-20 | when no two addresses share an index, exactly one address list is ordered by index, so reloading a consistent chain rebuilds its list exactly |
| `Accounts.SortedKeys` | account.js:18-20 | the result lists every key of the map exactly once, in non-decreasing order of its index |
| `Accounts.ConcatSplit` | account.js:70-74 | all addresses appear chain by chain: chain `j`'s list sits between the lists of chains before and after it |
| `Accounts.Account.constructor` | account.js:6-8 | the account holds the given chains in the given order |
| `Accounts.Account.FromJSON` | account.js:10-26 | one new, distinct chain per record, in order, with the record's node, `k` and map unchanged and the map's keys in index order as addresses; `ToJSON` then returns the records |
| `Accounts.Account.Clone` | account.js:28-32 | as many chains, each a new object equal to the original in its slot, all distinct |
| `Accounts.Account.ContainsAddress` | account.js:34-38 | true exactly when some chain's map has the address |
| `Accounts.Account.Derive` | account.js:41-50 | `None` exactly when no chain knows the address; otherwise what the first chain that knows it derives, with `parents[j]` (if given) as chain `j`'s parent |
| `Accounts.Account.DiscoverChain` | account.js:52-68 | never changes a live chain object; out-of-range index or failed scan: error reported, `chains` unchanged; success: only slot `i` changes, to a new chain in the state `Committed` (clone advanced, then trimmed) |
| `Accounts.Account.GetAllAddresses` | account.js:70-74 | contains exactly the addresses of all chains; their order is given by `ConcatSplit` |
| `Accounts.Account.GetChain` | account.js:76 | the live chain object of slot `i`, `None` outside the chains |
| `Accounts.Account.GetChains` | account.js:77 | the live chain objects themselves, in slot order |
| `Accounts.Account.GetChainAddress` | account.js:78 | chain `i`'s newest address; `InvalidChainIndex` out of range, `EmptyChain` for a chain with no address |
| `Accounts.Account.IsChainAddress` | account.js:81-83 | decided by chain `i`'s map alone; `InvalidChainIndex` out of range |
| `Accounts.Account.NextChainAddress` | account.js:85-87 | only chain `i` changes, by one `next`; the returned address is then chain `i`'s newest; `InvalidChainIndex` out of range |
| `Accounts.Account.ToJSON` | account.js:89-97 | one record per chain in slot order, carrying that chain's `k`, map and node |
| `Accounts.ContainsAddressIffChainAddress` | account.js:34-38 | an address is known to the account exactly when it is a chain address of some chain |
| `Accounts.DiscoveryKeepsThroughLastUsed` | account.js:59-61 | with the clone advanced `checked - 1` times, the commit keeps the old addresses plus the first `used` derived ones, and `k` rises by `used` |
| `Accounts.UneventfulDiscoveryRestores` | test/account.js:50-70 | a discovery that finds nothing used commits a chain equal to the one it started from |
| `Accounts.EventfulDiscoveryAdvancesOne` | test/account.js:72-92 | a discovery whose last used address is the chain's newest one (the first address checked) keeps the first derived address as the one unused address past it, so it commits the chain one `next` further on |
| `Accounts.CloneThenAdvance` | test/account.js:28-43 | after cloning, advancing one original chain leaves every cloned chain as it was cloned, so the two diverge by one address |

## Left out

- Base58 parsing and serialisation of key nodes, the `network` argument and child-key arithmetic belong to the key library. Records carry the node value itself, so the `node` round trip of `toJSON` after `fromJSON` is exact by construction.
- `getNetwork` only reads a field of the library's node. It is not modelled.
- The gap-limit scan and its oracle callback are asynchronous I/O in a file that is not part of this model. `DiscoverChain` takes the scan's outcome and the number of addresses it derived as parameters.
- `Accounts.Account.DiscoverChain`: an out-of-range index throws in the source before any callback runs. Here it is reported as `InvalidChainIndex`. The source clones chain `i` when the call starts (account.js:54) and writes the clone back only when the scan's callback fires (account.js:64), so a change made to the live chain `i` while the scan runs, such as a `nextChainAddress(i)`, is overwritten by the commit and lost. The commit is one atomic step here, so that lost update is not modelled.
- `Accounts.Account.GetChainAddress`, `Accounts.Account.IsChainAddress`, `Accounts.Account.NextChainAddress`: an out-of-range index throws a type error in the source. Here it is reported as `InvalidChainIndex`.
- `Accounts.Account.GetChain`: the source returns `undefined` for an index outside the chains rather than failing. The model follows the code: it returns `None`.
- `Chains.Chain.Get`, `Chains.Chain.GetAll`, `Chains.Chain.Next`: the chain's source (not part of this model) lazily derives a first address for an empty chain. Here `Get` on an empty chain reports `EmptyChain` and `GetAll` returns the empty list.
- `Accounts.SortedKeys`: the source's sort is stable over the map's key order. The model does not fix the order of addresses that share an index. `IndexOrderUnique` shows that this freedom disappears when indices are distinct.
- The source stores the record's `map` object in the chain and returns it from `toJSON` by reference, so later `next` calls also change the caller's record. Maps are values here, so that aliasing is not modelled. The same holds for `getChains`, which returns the live array.
- The default address function, used when none is given, belongs to the chain's source. The address function is always a parameter here.
