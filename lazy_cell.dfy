/**
 * The lazy storage cell: an optional storage key plus a cache that holds at
 * most one storage entry. The cell loads its value from contract storage on
 * first access, remembers whether the cached value may differ from storage,
 * and writes or clears storage only through its spread-layout hooks and its
 * destructor.
 *
 * The pure functions below say what each operation does to a `CellState`
 * (the cell's two fields as a value); the class `LazyCell` performs the
 * operations in place and its methods are specified by those functions.
 */
module LazyCells {
  import opened Wrappers
  import opened Storage

  /** Whether a cached value is known to equal what storage holds. */
  datatype EntryState = Preserved | Mutated

  /** A cached value (`None` is an explicit "nothing stored") and its state. */
  datatype StorageEntry<T> = StorageEntry(value: Option<T>, state: EntryState)

  /** The two fields of a cell; `cache == None` means "not loaded yet". */
  datatype CellState<T> = CellState(key: Option<Key>, cache: Option<StorageEntry<T>>)

  /** The accesses a cell offers after construction: `get`, `get_mut` and `set`. */
  datatype Access<T> = Shared | Exclusive | Overwrite(x: T)

  // ---------------------------------------------------------------------------
  // Specification of the operations on cell values

  /** A cell built from a value: no key, populated and dirty. */
  function NewState<T>(value: Option<T>): CellState<T>
  {
    CellState(None, Some(StorageEntry(value, Mutated)))
  }

  /** A cell bound to a key and not loaded. */
  function LazyState<T>(k: Key): CellState<T>
  {
    CellState(Some(k), None)
  }

  /**
   * The entry that resolving the cache yields: the cached entry when there is
   * one, otherwise what storage holds at the key (nothing without a key),
   * marked as agreeing with storage.
   */
  function Loaded<T>(c: CellState<T>, store: map<Key, T>): StorageEntry<T>
  {
    match c.cache
    case Some(e) => e
    case None =>
      StorageEntry(if c.key.Some? then PullRootOpt(store, c.key.value) else None, Preserved)
  }

  /** The storage reads resolving the cache costs. */
  function LoadReads<T>(c: CellState<T>): nat
  {
    if c.cache.None? && c.key.Some? then 1 else 0
  }

  /** The cell once its cache has been resolved. */
  function Resolved<T>(c: CellState<T>, store: map<Key, T>): CellState<T>
  {
    c.(cache := Some(Loaded(c, store)))
  }

  /** The cell after `set(x)`: the cache holds `x`, dirty, whatever it held before. */
  function Overwritten<T>(c: CellState<T>, x: T): CellState<T>
  {
    c.(cache := Some(StorageEntry(Some(x), Mutated)))
  }

  /** One access. `get` resolves; `get_mut` resolves and marks dirty; `set` overwrites. */
  function Step<T>(c: CellState<T>, a: Access<T>, store: map<Key, T>): CellState<T>
  {
    match a
    case Shared => Resolved(c, store)
    case Exclusive => c.(cache := Some(Loaded(c, store).(state := Mutated)))
    case Overwrite(x) => Overwritten(c, x)
  }

  /** The storage reads one access costs; `set` never reads. */
  function StepReads<T>(c: CellState<T>, a: Access<T>): nat
  {
    if a.Overwrite? then 0 else LoadReads(c)
  }

  /** A sequence of accesses, with storage unchanged in between. */
  function Run<T>(c: CellState<T>, ops: seq<Access<T>>, store: map<Key, T>): CellState<T>
    decreases |ops|
  {
    if ops == [] then c else Run(Step(c, ops[0], store), ops[1..], store)
  }

  /** The storage reads a sequence of accesses costs. */
  function RunReads<T>(c: CellState<T>, ops: seq<Access<T>>, store: map<Key, T>): nat
    decreases |ops|
  {
    if ops == [] then 0
    else StepReads(c, ops[0]) + RunReads(Step(c, ops[0], store), ops[1..], store)
  }

  /** A clean cached value of a keyed cell is what storage holds at its key. */
  ghost predicate Coherent<T>(c: CellState<T>, store: map<Key, T>)
  {
    c.cache.Some? && c.cache.value.state == Preserved && c.key.Some? ==>
      c.cache.value.value == PullRootOpt(store, c.key.value)
  }

  /** Storage after `push_spread` with root key `root`: a cached value is written there. */
  function Pushed<T>(c: CellState<T>, root: Key, store: map<Key, T>): map<Key, T>
  {
    if c.cache.Some? && c.cache.value.value.Some? then store[root := c.cache.value.value.value]
    else store
  }

  /** Storage after `clear_spread` with root key `root`: a loaded cell clears it. */
  function Cleared<T>(c: CellState<T>, root: Key, store: map<Key, T>): map<Key, T>
  {
    if c.cache.Some? then store - {root} else store
  }

  /** Storage after the cell is dropped: a keyed, loaded cell clears its key. */
  function Dropped<T>(c: CellState<T>, store: map<Key, T>): map<Key, T>
  {
    if c.key.Some? && c.cache.Some? then store - {c.key.value} else store
  }

  /**
   * The key pointer after `push_spread` or `clear_spread` as lazy_cell.rs
   * writes them: only a populated cell passes the pointer on to its entry,
   * which takes the value's footprint; an unloaded cell leaves it where it was.
   */
  function SpreadAdvanceAsWritten<T>(c: CellState<T>, ptr: KeyPtr, footprint: nat): KeyPtr
  {
    if c.cache.Some? then ptr.Advanced(footprint) else ptr
  }

  // ---------------------------------------------------------------------------
  // The cell, updated in place

  class LazyCell<T> {
    /** The key to load from; `None` for a cell built from a value. */
    var key: Option<Key>
    /** The cached entry; `None` until the first access. */
    var cache: Option<StorageEntry<T>>

    function State(): CellState<T>
      reads this
    {
      CellState(key, cache)
    }

    /** `new`: an already populated cell that never loads from storage. */
    constructor New(value: Option<T>)
      ensures State() == NewState(value)
    {
      key := None;
      cache := Some(StorageEntry(value, Mutated));
    }

    /** `lazy`: a cell that loads from `k` on first access; no storage is touched. */
    constructor Lazy(k: Key)
      ensures State() == LazyState(k)
    {
      key := Some(k);
      cache := None;
    }

    /** `From::from`: exactly `new(Some(value))`. */
    static method From(value: T) returns (c: LazyCell<T>)
      ensures fresh(c) && c.State() == NewState(Some(value))
    {
      c := new LazyCell.New(Some(value));
    }

    /** `Default::default`, given the value type's default: exactly `new(Some(default))`. */
    static method Default(defaultValue: T) returns (c: LazyCell<T>)
      ensures fresh(c) && c.State() == NewState(Some(defaultValue))
    {
      c := new LazyCell.New(Some(defaultValue));
    }

    /**
     * `load_through_cache`: a populated cache is returned unchanged; an empty
     * one is filled from storage (at most one read) and marked `Preserved`.
     */
    method LoadThroughCache(env: Env<T>) returns (e: StorageEntry<T>)
      modifies this`cache, env`readCount
      ensures State() == Resolved(old(State()), env.store)
      ensures cache == Some(e)
      ensures old(cache).Some? ==> cache == old(cache)
      ensures env.readCount == old(env.readCount) + LoadReads(old(State()))
    {
      if cache.None? {
        var value: Option<T> := None;
        if key.Some? {
          value := env.Read(key.value);
        }
        cache := Some(StorageEntry(value, Preserved));
      }
      e := cache.value;
    }

    /** `load_entry_mut`: resolves the cache and marks the entry `Mutated`. */
    method LoadEntryMut(env: Env<T>) returns (e: StorageEntry<T>)
      modifies this`cache, env`readCount
      ensures State() == Step(old(State()), Exclusive, env.store)
      ensures cache == Some(e) && e.state == Mutated
      ensures e.value == Loaded(old(State()), env.store).value
      ensures env.readCount == old(env.readCount) + LoadReads(old(State()))
    {
      e := LoadThroughCache(env);
      e := e.(state := Mutated);
      cache := Some(e);
    }

    /** `get`: the cached value, loading it first if needed; the entry state is kept. */
    method Get(env: Env<T>) returns (v: Option<T>)
      modifies this`cache, env`readCount
      ensures State() == Step(old(State()), Shared, env.store)
      ensures v == Loaded(old(State()), env.store).value
      ensures cache.Some? && cache.value.state == Loaded(old(State()), env.store).state
      ensures env.readCount == old(env.readCount) + LoadReads(old(State()))
    {
      var e := LoadThroughCache(env);
      v := e.value;
    }

    /**
     * `get_mut`: the same value `get` would give, with the entry now `Mutated`.
     * A write through the returned reference is a later `Set`.
     */
    method GetMut(env: Env<T>) returns (v: Option<T>)
      modifies this`cache, env`readCount
      ensures State() == Step(old(State()), Exclusive, env.store)
      ensures v == Loaded(old(State()), env.store).value
      ensures cache.Some? && cache.value.state == Mutated
      ensures env.readCount == old(env.readCount) + LoadReads(old(State()))
    {
      var e := LoadEntryMut(env);
      v := e.value;
    }

    /** `set`: overwrites the cache without reading storage (it has no access to it). */
    method Set(value: T)
      modifies this`cache
      ensures State() == Overwritten(old(State()), value)
      ensures cache == Some(StorageEntry(Some(value), Mutated))
    {
      // A populated entry is overwritten with `put`, which marks it dirty; an
      // empty cache receives a new dirty entry. Both give the same entry.
      cache := Some(StorageEntry(Some(value), Mutated));
    }

    /** `pull_spread`: a lazy cell at the pointer's key; the pointer moves past T's footprint. */
    static method PullSpread(ptr: KeyPtr, footprint: nat) returns (c: LazyCell<T>, next: KeyPtr)
      ensures fresh(c) && c.State() == LazyState(ptr.cur)
      ensures next == ptr.Advanced(footprint)
    {
      c := new LazyCell.Lazy(ptr.cur);
      next := ptr.Advanced(footprint);
    }

    /**
     * `push_spread`: a populated cell writes its value at the pointer's key.
     * The pointer always moves past T's footprint (see `SpreadAdvanceAsWritten`
     * for the unloaded case as lazy_cell.rs has it).
     */
    method PushSpread(ptr: KeyPtr, footprint: nat, env: Env<T>) returns (next: KeyPtr)
      modifies env`store
      ensures env.store == Pushed(State(), ptr.cur, old(env.store))
      ensures next == ptr.Advanced(footprint)
    {
      next := ptr.Advanced(footprint);
      if cache.Some? && cache.value.value.Some? {
        env.Write(ptr.cur, cache.value.value.value);
      }
    }

    /** `clear_spread`: a populated cell clears the pointer's key; the pointer moves on. */
    method ClearSpread(ptr: KeyPtr, footprint: nat, env: Env<T>) returns (next: KeyPtr)
      modifies env`store
      ensures env.store == Cleared(State(), ptr.cur, old(env.store))
      ensures next == ptr.Advanced(footprint)
    {
      next := ptr.Advanced(footprint);
      if cache.Some? {
        env.Clear(ptr.cur);
      }
    }

    /** `drop`: clears storage at the key, but only for a keyed cell that was loaded. */
    method Drop(env: Env<T>)
      modifies env`store
      ensures env.store == Dropped(State(), old(env.store))
    {
      if key.Some? {
        if cache.Some? {
          env.Clear(key.value);
        }
      }
    }
  }
}
