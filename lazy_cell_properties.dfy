/**
 * What the lazy cell promises across several operations: storage is read at
 * most once per cell, a loaded cache stays loaded, `get` keeps the entry
 * state and `get_mut`/`set` make it dirty for good, clean entries agree with
 * storage, and the spread hooks round-trip through storage.
 */
module LazyCellProperties {
  import opened Wrappers
  import opened Storage
  import opened LazyCells

  /** Every access leaves the cache populated and the key as it was. */
  lemma StepPopulates<T>(c: CellState<T>, a: Access<T>, store: map<Key, T>)
    ensures Step(c, a, store).key == c.key
    ensures Step(c, a, store).cache.Some?
    ensures c.cache.Some? && !a.Overwrite? ==>
      Step(c, a, store).cache.value.value == c.cache.value.value
  {
  }

  /**
   * A cell reads storage at most once in its life: only the first access can
   * read, it reads exactly when it is `get` or `get_mut` on an unloaded keyed
   * cell, and `set` as the first access means no read at all.
   */
  lemma {:induction false} RunReadsAtMostOnce<T>(c: CellState<T>, ops: seq<Access<T>>, store: map<Key, T>)
    ensures RunReads(c, ops, store) == if ops == [] || ops[0].Overwrite? then 0 else LoadReads(c)
    ensures RunReads(c, ops, store) <= 1
    ensures c.cache.Some? ==> RunReads(c, ops, store) == 0
    decreases |ops|
  {
    if ops != [] {
      var d := Step(c, ops[0], store);
      StepPopulates(c, ops[0], store);
      RunReadsAtMostOnce(d, ops[1..], store);
    }
  }

  /** Once loaded, a cache is never emptied again; the key never changes. */
  lemma {:induction false} RunKeepsPopulated<T>(c: CellState<T>, ops: seq<Access<T>>, store: map<Key, T>)
    ensures Run(c, ops, store).key == c.key
    ensures c.cache.Some? || ops != [] ==> Run(c, ops, store).cache.Some?
    decreases |ops|
  {
    if ops != [] {
      StepPopulates(c, ops[0], store);
      RunKeepsPopulated(Step(c, ops[0], store), ops[1..], store);
    }
  }

  /** Once loaded, what storage holds no longer affects the cell. */
  lemma {:induction false} RunIgnoresStoreOnceLoaded<T>(
    c: CellState<T>, ops: seq<Access<T>>, s1: map<Key, T>, s2: map<Key, T>)
    requires c.cache.Some?
    ensures Run(c, ops, s1) == Run(c, ops, s2)
    decreases |ops|
  {
    if ops != [] {
      assert Step(c, ops[0], s1) == Step(c, ops[0], s2);
      RunIgnoresStoreOnceLoaded(Step(c, ops[0], s1), ops[1..], s1, s2);
    }
  }

  /** Any number of `get` calls act as one resolution: the entry state is left alone. */
  lemma {:induction false} SharedAccessesResolveOnce<T>(c: CellState<T>, ops: seq<Access<T>>, store: map<Key, T>)
    requires forall i :: 0 <= i < |ops| ==> ops[i].Shared?
    ensures Run(c, ops, store) == if ops == [] then c else Resolved(c, store)
    decreases |ops|
  {
    if ops != [] {
      var d := Step(c, ops[0], store);
      assert d == Resolved(c, store);
      SharedAccessesResolveOnce(d, ops[1..], store);
      if ops[1..] != [] {
        assert Resolved(d, store) == d;
      }
    }
  }

  /** A dirty entry stays dirty under any further accesses. */
  lemma {:induction false} MutatedIsSticky<T>(c: CellState<T>, ops: seq<Access<T>>, store: map<Key, T>)
    requires c.cache.Some? && c.cache.value.state == Mutated
    ensures Run(c, ops, store).cache.Some?
    ensures Run(c, ops, store).cache.value.state == Mutated
    decreases |ops|
  {
    if ops != [] {
      MutatedIsSticky(Step(c, ops[0], store), ops[1..], store);
    }
  }

  /** After a `get_mut` or a `set` anywhere in a run, the entry ends up dirty. */
  lemma {:induction false} WriteAccessMarksMutated<T>(
    c: CellState<T>, ops: seq<Access<T>>, store: map<Key, T>, i: nat)
    requires i < |ops| && !ops[i].Shared?
    ensures Run(c, ops, store).cache.Some?
    ensures Run(c, ops, store).cache.value.state == Mutated
    decreases |ops|
  {
    var d := Step(c, ops[0], store);
    if i == 0 {
      MutatedIsSticky(d, ops[1..], store);
    } else {
      WriteAccessMarksMutated(d, ops[1..], store, i - 1);
    }
  }

  /** The value a run ends with is the last `set` value, if the run has a `set`. */
  lemma {:induction false} LastOverwriteWins<T>(
    c: CellState<T>, ops: seq<Access<T>>, store: map<Key, T>, i: nat)
    requires i < |ops| && ops[i].Overwrite?
    requires forall j :: i < j < |ops| ==> !ops[j].Overwrite?
    ensures Run(c, ops, store).cache == Some(StorageEntry(Some(ops[i].x), Mutated))
    decreases |ops|
  {
    var d := Step(c, ops[0], store);
    if i == 0 {
      assert d.cache == Some(StorageEntry(Some(ops[0].x), Mutated));
      NonOverwritesKeepMutatedValue(d, ops[1..], store);
    } else {
      WriteAccessMarksMutated(c, ops, store, i);
      LastOverwriteWins(d, ops[1..], store, i - 1);
    }
  }

  /** `get` and `get_mut` on a dirty populated entry change nothing. */
  lemma {:induction false} NonOverwritesKeepMutatedValue<T>(c: CellState<T>, ops: seq<Access<T>>, store: map<Key, T>)
    requires c.cache.Some? && c.cache.value.state == Mutated
    requires forall j :: 0 <= j < |ops| ==> !ops[j].Overwrite?
    ensures Run(c, ops, store) == c
    decreases |ops|
  {
    if ops != [] {
      assert Step(c, ops[0], store) == c;
      NonOverwritesKeepMutatedValue(c, ops[1..], store);
    }
  }

  /** Accesses keep a clean entry equal to what storage holds at the cell's key. */
  lemma {:induction false} RunKeepsCoherent<T>(c: CellState<T>, ops: seq<Access<T>>, store: map<Key, T>)
    requires Coherent(c, store)
    ensures Coherent(Run(c, ops, store), store)
    decreases |ops|
  {
    if ops != [] {
      RunKeepsCoherent(Step(c, ops[0], store), ops[1..], store);
    }
  }

  /** Pushing a cell at its own key keeps it coherent with storage. */
  lemma PushKeepsCoherent<T>(c: CellState<T>, store: map<Key, T>)
    requires c.key.Some? && Coherent(c, store)
    ensures Coherent(c, Pushed(c, c.key.value, store))
  {
  }

  /**
   * Round trip: pushing a cell holding `Some(v)` at root `k`, then pulling
   * (or building `lazy(k)`) and calling `get`, yields `Some(v)`, clean.
   */
  lemma PushThenPullRoundTrip<T>(c: CellState<T>, k: Key, store: map<Key, T>)
    requires c.cache.Some? && c.cache.value.value.Some?
    ensures Step(LazyState(k), Shared, Pushed(c, k, store))
         == CellState(Some(k), Some(StorageEntry(c.cache.value.value, Preserved)))
  {
  }

  /**
   * After `clear_spread` of a loaded cell at `k`, a fresh `lazy(k).get()`
   * yields nothing, clean; clearing again changes nothing.
   */
  lemma ClearThenPullIsEmpty<T>(c: CellState<T>, k: Key, store: map<Key, T>)
    requires c.cache.Some?
    ensures Step(LazyState(k), Shared, Cleared(c, k, store))
         == CellState(Some(k), Some(StorageEntry(None, Preserved)))
    ensures Cleared(c, k, Cleared(c, k, store)) == Cleared(c, k, store)
  {
  }

  /** The spread hooks of a cell whose cache was never loaded leave storage alone. */
  lemma UnloadedSpreadHooksAreSilent<T>(c: CellState<T>, root: Key, store: map<Key, T>)
    requires c.cache.None?
    ensures Pushed(c, root, store) == store
    ensures Cleared(c, root, store) == store
    ensures Dropped(c, store) == store
  {
  }

  /**
   * Dropping clears storage only for a cell that has a key and was loaded, and
   * then only at that key.
   */
  lemma DropClearsOnlyOwnKey<T>(c: CellState<T>, store: map<Key, T>)
    ensures Dropped(c, store) != store ==> c.key.Some? && c.cache.Some?
    ensures c.key.Some? && c.cache.Some? ==> c.key.value !in Dropped(c, store)
    ensures forall k :: k in store && c.key != Some(k) ==> k in Dropped(c, store) && Dropped(c, store)[k] == store[k]
  {
  }

  // ---------------------------------------------------------------------------
  // The key pointer in the spread hooks

  /**
   * As lazy_cell.rs writes `push_spread` and `clear_spread`, an unloaded cell
   * leaves the key pointer where it was, while `pull_spread` moved it past the
   * cell's footprint. The next field of an enclosing layout is then pushed or
   * cleared at the cell's own key.
   */
  lemma AsWrittenSpreadSkipsAdvance<T>(c: CellState<T>, ptr: KeyPtr, footprint: nat)
    requires c.cache.None? && footprint >= 1
    ensures SpreadAdvanceAsWritten(c, ptr, footprint).cur == ptr.cur
    ensures SpreadAdvanceAsWritten(c, ptr, footprint) != ptr.Advanced(footprint)
  {
  }

  /**
   * A layout of a lazy field followed by a sibling field, pulled from `ptr`
   * and pushed back with the lazy field never accessed. The sibling was
   * pulled from the key after the lazy field's footprint and read (a loaded
   * cell and a plain field push the same way); on the way back it is pushed at
   * `siblingPushKey`, wherever the lazy field's hook left the pointer.
   */
  function PushBackUntouched<T>(ptr: KeyPtr, footprint: nat, siblingPushKey: Key, store: map<Key, T>): map<Key, T>
  {
    var sibling := Resolved(LazyState<T>(ptr.Advanced(footprint).cur), store);
    Pushed(sibling, siblingPushKey, Pushed(LazyState<T>(ptr.cur), ptr.cur, store))
  }

  /**
   * As written, pushing such a layout back moves the sibling's stored value
   * onto the lazy field's key: the lazy field then loads the sibling's value.
   */
  lemma AsWrittenPushBackMovesSibling<T>(ptr: KeyPtr, footprint: nat, store: map<Key, T>)
    requires footprint >= 1 && ptr.Advanced(footprint).cur in store
    ensures
      var siblingKey := SpreadAdvanceAsWritten(LazyState<T>(ptr.cur), ptr, footprint).cur;
      Loaded(LazyState<T>(ptr.cur), PushBackUntouched(ptr, footprint, siblingKey, store)).value
        == Some(store[ptr.Advanced(footprint).cur])
  {
  }

  /**
   * The same for a concrete layout `(Lazy<int>, int)` at root 66 with storage
   * {66: 1, 67: 7}: after the push-back the lazy field loads 7, not 1.
   */
  lemma AsWrittenPushClobbersLazyField()
    ensures
      var store := map[66 := 1, 67 := 7];
      var siblingKey := SpreadAdvanceAsWritten(LazyState<int>(66), KeyPtr(66), 1).cur;
      Loaded(LazyState<int>(66), PushBackUntouched(KeyPtr(66), 1, siblingKey, store)).value == Some(7)
  {
  }

  /**
   * With the pointer always advanced past the footprint, as `pull_spread` and
   * the hooks of `LazyCell` here do, pulling such a layout and pushing it back
   * untouched leaves storage exactly as it was, for every storage.
   */
  lemma PushBackUntouchedLeavesStorage<T>(ptr: KeyPtr, footprint: nat, store: map<Key, T>)
    ensures PushBackUntouched(ptr, footprint, ptr.Advanced(footprint).cur, store) == store
  {
  }

  /** The concrete layout above, pushed back with the corrected pointer: the lazy field still loads 1. */
  lemma CorrectedPushKeepsLazyField()
    ensures
      var store := map[66 := 1, 67 := 7];
      var siblingKey := KeyPtr(66).Advanced(1).cur;
      Loaded(LazyState<int>(66), PushBackUntouched(KeyPtr(66), 1, siblingKey, store)).value == Some(1)
  {
  }
}
