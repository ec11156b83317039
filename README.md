# Lazy storage cell and DAO instance registry

This project models two pieces of an ink! smart-contract code base in Dafny.

**The lazy storage cell** `LazyCell<T>` (`ink/crates/storage/src/lazy/lazy_cell.rs`).
A cell has an optional storage key and a cache. The cache is empty until the
first access. After that it holds one entry: an optional value plus a state,
`Preserved` (agrees with storage) or `Mutated` (may differ).
- `get` loads the value from contract storage on first use.
- `get_mut` loads the same way and marks the entry `Mutated`.
- `set` overwrites the cache without reading storage.
- The spread-layout hooks `pull_spread`, `push_spread` and `clear_spread`, and
  the destructor, decide when storage is written or cleared.

Contract storage is `Storage.Env`: a map from keys to decoded values, plus a
ghost counter of reads, so "performs no read" can be stated.

The cell's two fields as a value are `LazyCells.CellState`. Pure functions
(`Loaded`, `Step`, `Run`, `Pushed`, `Cleared`, `Dropped`) say what each
operation does to it. The class `LazyCells.LazyCell` performs the operations in
place, and each method's contract ties its new state to those functions. The
module `LazyCellProperties` proves what holds across several operations:
- storage is read at most once per cell;
- a loaded cache is never emptied;
- `get` keeps the entry state, while `get_mut` and `set` make it dirty for good;
- clean entries agree with storage;
- push and pull round-trip through storage.

The private accessors `key()` and `entry()` are the fields `key` and `cache`
themselves. `load_entry` is `LoadThroughCache`: it only turns the pointer into a
reference.

**The DAO instance registry** (`main/lib.rs`). The `Main` contract keeps a
`u64` counter, the instances by index, and each owner's list of indices.
`instance_by_template` updates all three. The listing messages read them back.

Two cross-contract calls are not modelled. Their outcomes are parameters:
- the instantiation of a DAO manager (or of the template manager in `init`),
  given as `Option<AccountId>` (`None` is the failure that panics);
- the template lookup `query_template_by_index` in the template manager,
  given as `templateFound` (`false` is the failure that panics).

A panic becomes `Outcome.Panic` and leaves the state unchanged, as a reverted
message does. The invariant `RegistryInvariant` holds after `new` and after
every message:
- the instances are exactly the indices below the counter;
- each instance is stored under its own id;
- owners' lists are increasing and name instances of that owner;
- every instance is listed under its owner.

StorageEntry (`ink/crates/storage/src/lazy/entry.rs`) is not part of this model.
Its behaviour here is:
- pushing a loaded entry writes `Some(v)` at the root key and writes nothing for `None`;
- clearing removes the root key;
- `put(Some(x))` marks the entry `Mutated`.

The last point is what lazy_cell.rs's own test at lines 473-503 needs. That test
overwrites a clean, loaded entry with `set` and expects the new value after a
push.

## Model

| member | source | states |
|---|---|---|
| `LazyCells.LazyCell.New` | subDAO-contracts/ink/crates/storage/src/lazy/lazy_cell.rs:194-199 | `new(v)` has no key and the cache `Some(Entry(v, Mutated))` |
| `LazyCells.LazyCell.Lazy` | subDAO-contracts/ink/crates/storage/src/lazy/lazy_cell.rs:208-213 | `lazy(k)` has key `Some(k)` and an empty cache; it has no access to storage |
| `LazyCells.LazyCell.From` | subDAO-contracts/ink/crates/storage/src/lazy/lazy_cell.rs:165-172 | `From::from(x)` yields exactly the state of `new(Some(x))` |
| `LazyCells.LazyCell.Default` | subDAO-contracts/ink/crates/storage/src/lazy/lazy_cell.rs:174-181 | `default()` yields exactly the state of `new(Some(T::default()))` |
| `LazyCells.LazyCell.LoadThroughCache` | subDAO-contracts/ink/crates/storage/src/lazy/lazy_cell.rs:239-255 | afterwards the cache is populated. A populated cache is returned unchanged with no read. An empty one becomes `Entry(store[k] or None, Preserved)` after one read, or `Entry(None, Preserved)` with no key and no read |
| `LazyCells.LazyCell.LoadEntryMut` | subDAO-contracts/ink/crates/storage/src/lazy/lazy_cell.rs:270-281 | resolves the cache as above; the entry is then `Mutated` with the loaded value |
| `LazyCells.LazyCell.Get` | subDAO-contracts/ink/crates/storage/src/lazy/lazy_cell.rs:293-295 | returns the resolved value, keeps the entry state, and reads storage only when an unloaded keyed cell is loaded |
| `LazyCells.LazyCell.GetMut` | subDAO-contracts/ink/crates/storage/src/lazy/lazy_cell.rs:307-309 | returns the same value `get` would; the entry is left `Mutated`; the read cost is the same as `get` |
| `LazyCells.LazyCell.Set` | subDAO-contracts/ink/crates/storage/src/lazy/lazy_cell.rs:324-338 | takes no storage, so it cannot read; afterwards the cache is `Some(Entry(Some(x), Mutated))` on both paths |
| `LazyCells.LazyCell.PullSpread` | subDAO-contracts/ink/crates/storage/src/lazy/lazy_cell.rs:140-142 | yields `lazy(k)` for the pointer's key `k`; the pointer moves past T's footprint (the cell's FOOTPRINT is T's) |
| `LazyCells.LazyCell.PushSpread` | subDAO-contracts/ink/crates/storage/src/lazy/lazy_cell.rs:144-148 | a cell holding `Some(v)` writes `v` at the pointer's key; an unloaded cell or `None` writes nothing; the pointer always moves past the footprint (corrected, see Findings) |
| `LazyCells.LazyCell.ClearSpread` | subDAO-contracts/ink/crates/storage/src/lazy/lazy_cell.rs:150-154 | a loaded cell clears the pointer's key; an unloaded one leaves storage alone; the pointer always moves past the footprint (corrected, see Findings) |
| `LazyCells.LazyCell.Drop` | subDAO-contracts/ink/crates/storage/src/lazy/lazy_cell.rs:110-116 | clears storage at the key only when the cell has a key and a populated cache |
| `LazyCellProperties.StepPopulates` | subDAO-contracts/ink/crates/storage/src/lazy/lazy_cell.rs:244-254 | every access leaves the cache populated and the key unchanged; `get`/`get_mut` keep an already cached value |
| `LazyCellProperties.RunReadsAtMostOnce` | subDAO-contracts/ink/crates/storage/src/lazy/lazy_cell.rs:245-251 | over any sequence of accesses a cell reads storage at most once: only on a first `get`/`get_mut` of an unloaded keyed cell. A loaded cell, or a run that starts with `set`, reads nothing |
| `LazyCellProperties.RunKeepsPopulated` | subDAO-contracts/ink/crates/storage/src/lazy/lazy_cell.rs:239-255 | once populated, the cache is never emptied by later accesses, and the key never changes |
| `LazyCellProperties.RunIgnoresStoreOnceLoaded` | subDAO-contracts/ink/crates/storage/src/lazy/lazy_cell.rs:245-254 | once the cache is populated, the outcome of any accesses does not depend on storage |
| `LazyCellProperties.SharedAccessesResolveOnce` | subDAO-contracts/ink/crates/storage/src/lazy/lazy_cell.rs:258-267 | any number of `get` calls have the effect of one cache resolution; the entry state is untouched |
| `LazyCellProperties.MutatedIsSticky` | subDAO-contracts/ink/crates/storage/src/lazy/lazy_cell.rs:270-281 | a `Mutated` entry stays `Mutated` under any further accesses |
| `LazyCellProperties.WriteAccessMarksMutated` | subDAO-contracts/ink/crates/storage/src/lazy/lazy_cell.rs:278-279 | a run that contains a `get_mut` or a `set` ends with the entry `Mutated` |
| `LazyCellProperties.LastOverwriteWins` | subDAO-contracts/ink/crates/storage/src/lazy/lazy_cell.rs:452-470 | after a `set(x)` followed only by `get`/`get_mut`, the cache holds `Some(x)`, so `get` returns `Some(x)` |
| `LazyCellProperties.NonOverwritesKeepMutatedValue` | subDAO-contracts/ink/crates/storage/src/lazy/lazy_cell.rs:406-412 | `get`/`get_mut` on a dirty populated entry change nothing |
| `LazyCellProperties.RunKeepsCoherent` | subDAO-contracts/ink/crates/storage/src/lazy/lazy_cell.rs:245-251 | accesses keep a `Preserved` entry equal to what storage holds at the cell's key |
| `LazyCellProperties.PushKeepsCoherent` | subDAO-contracts/ink/crates/storage/src/lazy/lazy_cell.rs:144-148 | pushing a cell at its own key keeps its clean entry in agreement with storage |
| `LazyCellProperties.PushThenPullRoundTrip` | subDAO-contracts/ink/crates/storage/src/lazy/lazy_cell.rs:414-439 | pushing a cell holding `Some(v)` at `k`, then pulling or building `lazy(k)` and calling `get`, gives `Some(v)` with state `Preserved` |
| `LazyCellProperties.ClearThenPullIsEmpty` | subDAO-contracts/ink/crates/storage/src/lazy/lazy_cell.rs:440-447 | after clearing a loaded cell at `k`, `lazy(k).get()` gives `None` with state `Preserved`; clearing twice equals clearing once |
| `LazyCellProperties.UnloadedSpreadHooksAreSilent` | subDAO-contracts/ink/crates/storage/src/lazy/lazy_cell.rs:144-154 | push, clear and drop of a cell whose cache is empty leave storage unchanged |
| `LazyCellProperties.DropClearsOnlyOwnKey` | subDAO-contracts/ink/crates/storage/src/lazy/lazy_cell.rs:110-116 | drop changes storage only for a keyed, loaded cell; it then removes that key and leaves every other key as it was |
| `LazyCellProperties.AsWrittenSpreadSkipsAdvance` | subDAO-contracts/ink/crates/storage/src/lazy/lazy_cell.rs:144-154 | as written, push/clear of an unloaded cell leave the key pointer at the cell's key, where pull had moved it past the footprint |
| `LazyCellProperties.AsWrittenPushBackMovesSibling` | subDAO-contracts/ink/crates/storage/src/lazy/lazy_cell.rs:144-148 | as written, pulling a layout of a lazy field and a sibling and pushing it back with the lazy field untouched puts the sibling's stored value on the lazy field's key, so the lazy field then loads the sibling's value |
| `LazyCellProperties.AsWrittenPushClobbersLazyField` | subDAO-contracts/ink/crates/storage/src/lazy/lazy_cell.rs:144-148 | as written, for `(Lazy<int>, int)` at 66 with storage {66: 1, 67: 7}, the push-back leaves the lazy field loading 7 instead of 1 |
| `LazyCellProperties.PushBackUntouchedLeavesStorage` | subDAO-contracts/ink/crates/storage/src/lazy/lazy_cell.rs:140-148 | with the pointer always advanced, as `pull_spread` does, pulling that layout and pushing it back untouched leaves every storage exactly as it was |
| `LazyCellProperties.CorrectedPushKeepsLazyField` | subDAO-contracts/ink/crates/storage/src/lazy/lazy_cell.rs:140-148 | with the pointer always advanced, the same concrete layout pushed back leaves the lazy field loading 1 |
| `DaoRegistry.RegisterKeepsInvariant` | subDAO-contracts/main/lib.rs:129-137 | recording instance `index` for `controller` and moving the counter on keeps the registry invariant, as long as the counter is below `u64::MAX` |
| `DaoRegistry.Main.constructor` | subDAO-contracts/main/lib.rs:59-69 | `new(controller)`: owner is `controller`, both template fields `None`, counter 0, both maps empty, invariant holds |
| `DaoRegistry.Main.Init` | subDAO-contracts/main/lib.rs:71-85 | a failed instantiation panics and changes nothing; otherwise both template fields hold the new address |
| `DaoRegistry.Main.QueryTemplateAddr` | subDAO-contracts/main/lib.rs:103-105 | panics exactly when there is no template address; otherwise returns it |
| `DaoRegistry.Main.InstanceByTemplate` | subDAO-contracts/main/lib.rs:108-139 | panics and changes nothing exactly when the counter is `u64::MAX`, no template manager is set, the template lookup failed, or instantiation failed. Otherwise it returns `true`, stores `DAOInstance(old index, controller, addr)` under the old index, appends the old index to the controller's list, leaves other entries and owners alone, adds 1 to the counter, and keeps the invariant |
| `DaoRegistry.Main.ListDaoInstances` | subDAO-contracts/main/lib.rs:142-151 | one copy of every stored instance: same count as the map, every element a stored instance, every stored instance present; in a valid registry no id twice |
| `DaoRegistry.Main.ListDaoInstancesByOwner` | subDAO-contracts/main/lib.rs:154-164 | panics when the owner has no list, or a listed index has no instance. Otherwise it returns the listed instances in list order, same length as the list. In a valid registry it panics only for an unknown owner, and the result is exactly the instances of that owner |

## Findings

| source | as written | input that shows it | evidently intended | confidence | as-written member | corrected member |
|---|---|---|---|---|---|---|
| subDAO-contracts/ink/crates/storage/src/lazy/lazy_cell.rs:144-154 | `push_spread` and `clear_spread` advance the key pointer only when the cache is populated (the entry's own hook does it), while `pull_spread` (140-142) always advances it by T's footprint | a layout `(Lazy<u8>, u8)` at root key 66 with storage {66: 1, 67: 7}, pulled and pushed back without accessing the lazy field: the sibling `u8` is pushed at key 66, and the lazy field then reads 7 instead of 1 | every hook consumes the cell's footprint from the pointer, whether or not the cache is loaded, so siblings keep the keys `pull_spread` gave them | high; not executed | `LazyCellProperties.AsWrittenPushClobbersLazyField` (with `LazyCellProperties.AsWrittenPushBackMovesSibling` and `LazyCellProperties.AsWrittenSpreadSkipsAdvance`) | `LazyCells.LazyCell.PushSpread`, `LazyCells.LazyCell.ClearSpread` (with `LazyCellProperties.PushBackUntouchedLeavesStorage` and `LazyCellProperties.CorrectedPushKeepsLazyField`) |

## Left out

- The `UnsafeCell`/`CacheCell`/`NonNull` plumbing. The cache is an ordinary mutable field, so the references handed out and their aliasing have no counterpart.
- SCALE encoding and decoding, and the decode-failure panic. Storage holds decoded values.
- A value's spread over several key slots. A value of T lives at its root key. T's footprint enters only as the distance the key pointer moves.
- Storage keys are unbounded numbers. The 256-bit wrap-around of the key pointer's advance is not modelled.
- `LazyCells.LazyCell.PushSpread`: writes a loaded `Some(v)` at the pointer's key whatever the entry's state. StorageEntry's own push (not part of this model) writes only a `Mutated` entry and then marks it `Preserved`. So here a clean entry loaded from one key and pushed at another key writes that other key, and a push leaves the cell's state unchanged.
- `LazyCells.LazyCell.GetMut`: writing through the returned `&mut T` is not modelled. Such a write is a later `Set`, which ends in the same state.
- `Debug` formatting and the std-only `StorageLayout` metadata.
- `DaoRegistry.Main.InstanceByTemplate`: the `index` argument is not modelled. It only selects the template in the template manager, which is another contract; the outcome of that lookup is the `templateFound` parameter.
- `DaoRegistry.Main.InstanceByTemplate`: the endowment (`balance() / 4`) and the `InstanceDAO` event are not modelled.
- The cross-contract messages `add_template`, `list_templates` and `query_template_by_index`. They only forward to the template manager contract.
- `DaoRegistry.Main.ListDaoInstances`: the iteration order of the storage hash map is not modelled.
- The off-chain test environment (`ink/crates/env/src/engine/off_chain/test_api.rs`) is not part of this model.
