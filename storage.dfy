/**
 * The boundary the lazy cell is built on: storage keys, the key pointer that
 * hands out keys to the fields of a spread layout, and the contract storage
 * itself, a flat key-to-value store.
 */
module Storage {
  import opened Wrappers

  /** A storage key. The 32-byte key is read as an unbounded number. */
  type Key = nat

  /** A cursor over keys, as the spread-layout hooks receive it. */
  datatype KeyPtr = KeyPtr(cur: Key) {
    /** The cursor once a field of `footprint` slots has taken its keys. */
    function Advanced(footprint: nat): KeyPtr
    {
      KeyPtr(cur + footprint)
    }
  }

  /** What pulling the root of a value at `k` yields: the stored value, or nothing. */
  function PullRootOpt<T>(store: map<Key, T>, k: Key): Option<T>
  {
    if k in store then Some(store[k]) else None
  }

  /**
   * The contract storage. Values are kept decoded: the codec is left abstract.
   * `readCount` counts every read, so that "this performs no read" can be stated.
   */
  class Env<T> {
    var store: map<Key, T>
    ghost var readCount: nat

    method Read(k: Key) returns (v: Option<T>)
      modifies this`readCount
      ensures v == PullRootOpt(store, k)
      ensures readCount == old(readCount) + 1
    {
      v := if k in store then Some(store[k]) else None;
      readCount := readCount + 1;
    }

    method Write(k: Key, v: T)
      modifies this`store
      ensures store == old(store)[k := v]
    {
      store := store[k := v];
    }

    method Clear(k: Key)
      modifies this`store
      ensures store == old(store) - {k}
    {
      store := store - {k};
    }
  }
}
