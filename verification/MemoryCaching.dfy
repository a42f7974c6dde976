/** `MemoryCache` of `patterns/14_caching/cache_aside.go`, the cache the other models use.
    `now` stands for `time.Now()`. */
module MemoryCaching {
  import opened Common

  type Key = string

  datatype Item<V> = Item(val: V, expiresAt: int)

  datatype CacheError = CacheMiss

  /** A key is served until the moment after its expiry. */
  function Lookup<V>(items: map<Key, Item<V>>, key: Key, now: int): Option<V> {
    if key !in items || now > items[key].expiresAt then None else Some(items[key].val)
  }

  function Stored<V>(items: map<Key, Item<V>>, key: Key, val: V, ttl: int, now: int): map<Key, Item<V>> {
    items[key := Item(val, now + ttl)]
  }

  class MemoryCache<V> {
    var items: map<Key, Item<V>>

    constructor ()
      ensures items == map[]
    {
      items := map[];
    }

    method Get(key: Key, now: int) returns (r: Result<V, CacheError>)
      ensures r == match Lookup(items, key, now) case Some(v) => Ok(v) case None => Err(CacheMiss)
      ensures r.Ok? <==> key in items && now <= items[key].expiresAt
      ensures r.Ok? ==> r.value == items[key].val
    {
      if key !in items || now > items[key].expiresAt {
        return Err(CacheMiss);
      }
      return Ok(items[key].val);
    }

    method Set(key: Key, val: V, ttl: int, now: int)
      modifies this
      ensures items == Stored(old(items), key, val, ttl, now)
      ensures items.Keys == old(items.Keys) + {key} && items[key].val == val && items[key].expiresAt == now + ttl
      ensures forall k :: k in old(items) && k != key ==> items[k] == old(items[k])
    {
      items := items[key := Item(val, now + ttl)];
    }

    method Delete(key: Key)
      modifies this
      ensures items == old(items) - {key}
    {
      items := items - {key};
    }
  }
}
