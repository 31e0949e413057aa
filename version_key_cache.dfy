/**
 * The concrete aspect that ties every cached result to EPiServer's global
 * content version key: when that key changes, every entry it cached expires.
 * It supplies only the eviction policy; keys and hooks are the base aspect's.
 */
module VersionKeyCache {
  import opened Wrappers
  import opened CacheKeys
  import opened CacheStore
  import opened CacheAspects

  /**
   * Stands for `DataFactoryCache.VersionKey`. Its actual text is defined by
   * EPiServer; only its identity matters here.
   */
  const DataFactoryVersionKey: string := "DataFactoryCache.VersionKey"

  /** The policy property: a policy whose only dependency is the version key, never null. */
  function VersionKeyEvictionPolicy(): (p: Option<CacheEvictionPolicy>)
    ensures p.Some?
    ensures |p.value.cacheKeys| == 1
    ensures forall k :: k in p.value.cacheKeys <==> k == DataFactoryVersionKey
  {
    Some(CacheEvictionPolicy([DataFactoryVersionKey]))
  }

  /** A version-key aspect over the given store: the base aspect with this variant's policy. */
  method NewVersionKeyCacheAttribute<V>(cache: ObjectInstanceCache<V>) returns (aspect: CacheAspect<V>)
    ensures fresh(aspect)
    ensures aspect.evictionPolicy == VersionKeyEvictionPolicy()
    ensures aspect.cache == cache && aspect.methodName == ""
  {
    aspect := new CacheAspect(VersionKeyEvictionPolicy(), cache);
  }

  /**
   * Under this variant a call that misses and returns always inserts: its
   * result is added under the call's key, depending on the version key alone,
   * to the store the body left, and no other entry of that store changes.
   */
  lemma {:induction false} VersionKeyAlwaysInserts<V>(
    methodName: string, entries: map<string, StoreEntry<V>>,
    instance: Option<string>, arguments: seq<Option<string>>, result: Option<V>, bodyStore: map<string, StoreEntry<V>>)
    requires Lookup(entries, CacheKey(methodName, instance, arguments)).None?
    ensures var key := CacheKey(methodName, instance, arguments);
      var (outcome, after) := Intercept(methodName, VersionKeyEvictionPolicy(), entries, instance, arguments, Returned(result, bodyStore));
      outcome == Value(result) &&
      key in after && after[key].value == result && after[key].policy.cacheKeys == [DataFactoryVersionKey] &&
      after.Keys == bodyStore.Keys + {key} &&
      forall k :: k in bodyStore && k != key ==> after[k] == bodyStore[k]
  {
    MissComputesThenStores(methodName, VersionKeyEvictionPolicy().value, entries, instance, arguments, result, bodyStore);
  }

  /**
   * The variant changes nothing but the policy stored with an entry: with any
   * other non-null policy, the same call gives the caller the same outcome and
   * the store the same keys and values.
   */
  lemma VariantDiffersOnlyInPolicy<V>(
    other: CacheEvictionPolicy, methodName: string, entries: map<string, StoreEntry<V>>,
    instance: Option<string>, arguments: seq<Option<string>>, body: BodyOutcome<V>)
    ensures var (o1, s1) := Intercept(methodName, VersionKeyEvictionPolicy(), entries, instance, arguments, body);
      var (o2, s2) := Intercept(methodName, Some(other), entries, instance, arguments, body);
      o1 == o2 && s1.Keys == s2.Keys && forall k :: k in s1 ==> s1[k].value == s2[k].value
  {
  }
}
