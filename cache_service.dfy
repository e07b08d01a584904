/** The single-slot cache of the normalised tree: the last stored tree and
    the time it was stored, and the one-hour freshness rule. The module
    variables of the source become the two fields of one object, and the
    clock reading `Date.now()` becomes a `now` argument. */
module CacheService {
  import opened VideoTypes

  /** One hour, in milliseconds. */
  const CacheDuration: int := 3600000

  /** What `getCachedData` answers. */
  datatype CacheSnapshot = CacheSnapshot(data: Option<seq<ExtendedCategory>>, isFresh: bool)

  class CategoryCache {
    /** `awesomeVideoCache`: the last stored tree, None before any store. */
    var data: Option<seq<ExtendedCategory>>
    /** `lastFetchTime`: when the tree was stored, 0 before any store. */
    var lastFetchTime: int

    /** The state the module starts in. */
    constructor ()
      ensures data == None && lastFetchTime == 0
    {
      data := None;
      lastFetchTime := 0;
    }

    /** `getCachedData` at time `now`: the stored tree, whatever its age,
        and whether it is fresh, that is, present and stored less than one
        hour before `now`. Reading changes nothing. */
    function GetCachedData(now: int): (snapshot: CacheSnapshot)
      reads this
      ensures snapshot.data == data
      ensures snapshot.isFresh <==> data.Some? && now - lastFetchTime < CacheDuration
      ensures snapshot.isFresh ==> snapshot.data.Some?
    {
      CacheSnapshot(data, data.Some? && now - lastFetchTime < CacheDuration)
    }

    /** `updateCache(data)` at time `now`: the slot now holds `newData`,
        stamped `now`, whatever it held before. */
    method UpdateCache(newData: seq<ExtendedCategory>, now: int)
      modifies this
      ensures data == Some(newData) && lastFetchTime == now
    {
      data := Some(newData);
      lastFetchTime := now;
    }
  }

  /** Before any update the cache answers no data and not fresh, at any
      time. */
  method ReadBeforeAnyUpdate(now: int) returns (snapshot: CacheSnapshot)
    ensures snapshot.data == None && !snapshot.isFresh
  {
    var cache := new CategoryCache();
    snapshot := cache.GetCachedData(now);
  }

  /** A store followed by a read gives back what was stored; it is fresh
      while less than an hour has passed and stale from then on. */
  method ReadAfterUpdate(stored: seq<ExtendedCategory>, storedAt: int, now: int) returns (snapshot: CacheSnapshot)
    ensures snapshot.data == Some(stored)
    ensures snapshot.isFresh <==> now < storedAt + CacheDuration
  {
    var cache := new CategoryCache();
    cache.UpdateCache(stored, storedAt);
    snapshot := cache.GetCachedData(now);
  }

  /** The cache is one slot where the last write wins: after two stores
      only the second tree and its time are seen. */
  method LastUpdateWins(first: seq<ExtendedCategory>, firstAt: int, second: seq<ExtendedCategory>, secondAt: int, now: int)
    returns (snapshot: CacheSnapshot)
    ensures snapshot.data == Some(second)
    ensures snapshot.isFresh <==> now < secondAt + CacheDuration
  {
    var cache := new CategoryCache();
    cache.UpdateCache(first, firstAt);
    cache.UpdateCache(second, secondAt);
    snapshot := cache.GetCachedData(now);
  }
}
