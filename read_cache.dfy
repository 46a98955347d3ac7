/**
 * The Caffeine cache of token -> original URL that the service reads through. Only the
 * entries it currently holds are modelled; its size bound and expire-after-write timer
 * become Evict, which may drop any entries between two operations.
 */
module Cache {
  import opened Wrappers

  class OriginalUrlCache {
    var entries: map<string, string>

    constructor ()
      ensures entries == map[]
    {
      entries := map[];
    }

    /** getIfPresent: the cached value, or None (null) on a miss. */
    function GetIfPresent(key: string): (r: Option<string>)
      reads this
      ensures r.Some? <==> key in entries
      ensures r.Some? ==> r.value == entries[key]
    {
      if key in entries then Some(entries[key]) else None
    }

    /** put: the key now maps to the value; other entries are untouched. */
    method Put(key: string, value: string)
      modifies this
      ensures entries == old(entries)[key := value]
    {
      entries := entries[key := value];
    }

    /** Size- or time-based eviction of the given entries. */
    method Evict(keys: set<string>)
      modifies this
      ensures entries == old(entries) - keys
      ensures forall k :: k in entries ==> k in old(entries) && entries[k] == old(entries)[k]
    {
      entries := entries - keys;
    }
  }
}
