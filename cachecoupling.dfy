/** How the two controllers meet in the allocatable cache: the registration
    controller writes `allocatableCache;<pool>;<instance-type>`, the hash
    controller deletes every key starting with `allocatableCache;<pool>;`.
    Kubernetes names and label values never contain ';', and that is what
    makes the purge exact. */
module CacheCoupling {
  import opened SharedCache
  import NodePoolHash
  import Lifecycle

  /** A registration key falls under a pool's purge prefix exactly when it
      was written for that pool, also when one pool name is a prefix of the
      other. */
  lemma PoolPrefixMatchesOnlyOwnPool(pool: string, other: string, instanceType: string)
    requires ';' !in pool && ';' !in other
    ensures HasPrefix(Lifecycle.AllocatableCacheKey(other, instanceType), NodePoolHash.PoolCachePrefix(pool))
            <==> other == pool
  {
    var key := Lifecycle.AllocatableCacheKey(other, instanceType);
    var prefix := NodePoolHash.PoolCachePrefix(pool);
    var head := "allocatableCache;";
    assert key == head + other + ";" + instanceType;
    assert prefix == head + pool + ";";
    if other == pool {
      assert key[..|prefix|] == prefix;
    } else {
      // A position below |prefix| where the key and the prefix differ.
      var h := |head|;
      var i: nat;
      if |other| < |pool| {
        i := h + |other|;
        assert key[i] == ';' && prefix[i] == pool[|other|] && pool[|other|] in pool;
      } else if |other| > |pool| {
        i := h + |pool|;
        assert key[i] == other[|pool|] && prefix[i] == ';' && other[|pool|] in other;
      } else {
        assert exists j :: 0 <= j < |pool| && other[j] != pool[j];
        var j :| 0 <= j < |pool| && other[j] != pool[j];
        i := h + j;
        assert key[i] == other[j] && prefix[i] == pool[j];
      }
      if |prefix| <= |key| {
        assert key[..|prefix|][i] != prefix[i];
      }
    }
  }

  /** After the hash controller purges a pool, a registration entry of some
      pool survives exactly when it belongs to another pool, whose value is
      kept. */
  lemma PurgeDropsExactlyPoolEntries(cache: CacheItems, pool: string, other: string, instanceType: string)
    requires ';' !in pool && ';' !in other
    ensures var key := Lifecycle.AllocatableCacheKey(other, instanceType);
      var purged := NodePoolHash.PurgePool(cache, pool);
      && (key in purged <==> key in cache && other != pool)
      && (key in purged ==> purged[key] == cache[key])
  {
    PoolPrefixMatchesOnlyOwnPool(pool, other, instanceType);
  }
}
