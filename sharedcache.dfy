/** The allocatable cache shared by the registration and hash controllers:
    string keys to (value, TTL). It is an explicit object handed to whoever
    uses it; expiry is not modelled, the TTL is kept as data. */
module SharedCache {
  import opened Objects

  /** Go's `time.Duration` unit is the nanosecond. */
  const Hour: int := 3_600_000_000_000
  const DefaultSharedCacheTTL: int := 24 * Hour

  datatype CacheEntry = CacheEntry(value: ResourceList, ttl: int)

  type CacheItems = map<string, CacheEntry>

  predicate HasPrefix(s: string, prefix: string) {
    |prefix| <= |s| && s[..|prefix|] == prefix
  }

  class AllocatableCache {
    var items: CacheItems

    constructor ()
      ensures items == map[]
    {
      items := map[];
    }

    method Set(key: string, value: ResourceList, ttl: int)
      modifies this
      ensures items == old(items)[key := CacheEntry(value, ttl)]
    {
      items := items[key := CacheEntry(value, ttl)];
    }

    method Delete(key: string)
      modifies this
      ensures items == old(items) - {key}
    {
      items := items - {key};
    }
  }
}
