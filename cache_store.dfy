/**
 * The contract the aspects need of EPiServer's synchronized object instance
 * cache: `Get` a value by key, `Insert` a value under an eviction policy. The
 * store is abstracted as a map from keys to entries; how it evicts entries when
 * a dependency key changes happens inside the store and is not modelled.
 */
module CacheStore {
  import opened Wrappers

  /** An eviction policy: the master cache keys an entry depends on. */
  datatype CacheEvictionPolicy = CacheEvictionPolicy(cacheKeys: seq<string>)

  /** One stored entry. A method may return null, so the value is optional. */
  datatype StoreEntry<V> = StoreEntry(value: Option<V>, policy: CacheEvictionPolicy)

  /** What `Get` yields for a key: the stored value, or null when nothing is stored. */
  function Lookup<V>(entries: map<string, StoreEntry<V>>, key: string): (r: Option<V>)
    ensures key in entries ==> r == entries[key].value
    ensures r.Some? ==> key in entries
    ensures key !in entries ==> r == None
  {
    if key in entries then entries[key].value else None
  }

  class ObjectInstanceCache<V> {
    var entries: map<string, StoreEntry<V>>

    constructor ()
      ensures entries == map[]
    {
      entries := map[];
    }

    method Get(key: string) returns (value: Option<V>)
      ensures value == Lookup(entries, key)
    {
      value := if key in entries then entries[key].value else None;
    }

    method Insert(key: string, value: Option<V>, policy: CacheEvictionPolicy)
      modifies this
      ensures entries == old(entries)[key := StoreEntry(value, policy)]
    {
      entries := entries[key := StoreEntry(value, policy)];
    }
  }
}
