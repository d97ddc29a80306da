/**
 * The process-wide cache that `../utils/cache` exports, as get/set on a map.
 * Entries never expire in this model.
 */
module CacheStore {
  import opened JsValues

  class Cache<V> {
    /** The stored entries by key. */
    var entries: map<string, V>

    /** An empty cache, as the process starts with. */
    constructor ()
      ensures entries == map[]
    {
      entries := map[];
    }

    /** `cache.get(key)`: `undefined` when the key was never set. */
    function Get(key: string): (r: Option<V>)
      reads this
      ensures r.Some? <==> key in entries
      ensures r.Some? ==> r.value == entries[key]
    {
      if key in entries then Some(entries[key]) else None
    }

    /** `cache.set(key, value)`: last write wins, other keys untouched. */
    method Set(key: string, value: V)
      modifies this
      ensures entries == old(entries)[key := value]
    {
      entries := entries[key := value];
    }
  }
}
