/** The per-thread shard context that DirectShardCallbackTemplate writes through
    the static setters of ShardingKeyDataSourceAdapter: one slot for the sharding
    key and one for the super sharding key. A Java `null` in a slot is `None`.
    The real store is a thread-local; here it is one object owned by the caller,
    which stands for the current thread's slots. Keys are opaque: only equality
    is ever used on them. */
module ShardingContext {

  datatype Option<T> = None | Some(value: T)

  /** The value held by the two slots at one instant. */
  datatype Context<K> = Context(shardKey: Option<K>, superKey: Option<K>)
  {
    /** Both slots are empty: no shard is selected for the thread. */
    predicate IsEmpty() {
      shardKey.None? && superKey.None?
    }
  }

  /** The context a thread has before anything was set and after a clear. */
  function Empty<K>(): (c: Context<K>)
    ensures c.IsEmpty()
  {
    Context(None, None)
  }

  /** The thread-local slots, updated in place by the adapter's static setters. */
  class ShardContext<K> {
    var shardKey: Option<K>
    var superKey: Option<K>

    /** The value of both slots, as the data-access code in a callback reads them. */
    function Current(): Context<K>
      reads this
    {
      Context(shardKey, superKey)
    }

    /** A fresh thread: nothing set yet. */
    constructor ()
      ensures Current().IsEmpty()
    {
      shardKey := None;
      superKey := None;
    }

    /** setShardingKeyForCurrentThread: the key is stored as given (a null
        key empties the slot); the super key slot is not touched. */
    method SetShardingKey(key: Option<K>)
      modifies this
      ensures shardKey == key
      ensures superKey == old(superKey)
    {
      shardKey := key;
    }

    /** setSuperShardingKeyForCurrentThread: only the super key slot changes. */
    method SetSuperShardingKey(key: K)
      modifies this
      ensures superKey == Some(key)
      ensures shardKey == old(shardKey)
    {
      superKey := Some(key);
    }

    /** clearShardingKeysFromCurrentThread: both slots are emptied, whichever
        of them had been set. */
    method Clear()
      modifies this
      ensures Current() == Empty()
    {
      shardKey := None;
      superKey := None;
    }
  }
}
