/** Sequences of cache operations and what a caller can conclude from their contracts alone. */
module Scenarios {
  import opened Results
  import opened Expiration
  import opened CacheKeys
  import opened FileUrls
  import opened CacheTypes
  import opened ObjectCache

  /** The file named by `hash` is the last component of the path `cachePath` gives. */
  lemma HashNamesCachePathFile<O, D>(c: Cache<O, D>, key: string, id: string)
    requires c.FileNamesAreFlat()
    ensures LastPathComponent(c.CachePath(key, id)) == c.Hash(key, id)
  {
    LastPathComponentOfFileUrl(c.directory, c.Hash(key, id));
  }

  /** A stored object is answered from memory while the memory tier's policy has not expired it. */
  method StoreThenRetrieve<O, D>(c: Cache<O, D>, image: O, key: string, id: string, now: int)
    returns (delivered: Option<Result<CacheResult<O>, CacheError>>)
    requires !IsExpired(c.memoryExpiration, now)
    modifies c
    ensures delivered == Some(Success(FromMemory(image)))
    ensures c.CachedType(key, id, now) == Memory
  {
    var _ := c.Store(image, None, key, id, true, now, None, false);
    delivered := c.Retrieve(key, id, now, None, true);
  }

  /** Under a memory policy that is already expired, a stored object is never found in memory. */
  method StoreUnderExpiredPolicy<O, D>(c: Cache<O, D>, image: O, key: string, id: string, now: int)
    requires IsExpired(c.memoryExpiration, now)
    modifies c
    ensures c.CachedType(key, id, now) != Memory
    ensures ComputedKey(key, id) !in old(c.disk) ==> !c.IsCached(key, id, now)
  {
    var _ := c.Store(image, None, key, id, false, now, None, false);
  }

  /**
   * After the memory tier is cleared, a key written to disk is answered from disk with the decoded
   * object, which is then back in memory.
   */
  method ClearMemoryThenRetrieve<O, D>(c: Cache<O, D>, image: O, key: string, id: string, now: int)
    returns (delivered: Option<Result<CacheResult<O>, CacheError>>)
    requires c.serializer.data(image, None).Some?
    requires !IsExpired(c.memoryExpiration, now) && !IsExpired(c.diskExpiration, now)
    modifies c
    ensures var decoded := c.serializer.image(c.serializer.data(image, None).value);
      && (decoded.Some? ==> delivered == Some(Success(FromDisk(decoded.value))) && c.CachedType(key, id, now) == Memory)
      && (decoded == None ==> delivered == Some(Success(Absent)) && c.CachedType(key, id, now) == Disk)
  {
    var _ := c.Store(image, None, key, id, true, now, None, false);
    c.ClearMemoryCache();
    delivered := c.Retrieve(key, id, now, None, true);
  }

  /**
   * A disk sweep that deletes a stored key's file leaves the key cached while its memory entry is
   * live, because `store` also wrote memory and `cachedType` asks memory first.
   */
  method StoreThenDiskSweep<O, D>(c: Cache<O, D>, image: O, key: string, id: string, now: int)
    requires c.serializer.data(image, None).Some?
    requires !IsExpired(c.memoryExpiration, now)
    requires c.FileNamesAreFlat()
    modifies c
    ensures ComputedKey(key, id) !in c.disk
    ensures c.IsCached(key, id, now) && c.CachedType(key, id, now) == Memory
    ensures c.cleanedNotifications == old(c.cleanedNotifications) + [[c.Hash(key, id)]]
  {
    var _ := c.Store(image, None, key, id, true, now, None, false);
    var _ := c.CleanExpiredDiskCache(Some([]), Some([ComputedKey(key, id)]), false);
    CleanedHashesAreFileNames(c.directory, c.cacheFileName, [ComputedKey(key, id)]);
    assert [] + [ComputedKey(key, id)] == [ComputedKey(key, id)];
    assert CleanedHashes(CacheFileUrls(c.directory, c.cacheFileName, [ComputedKey(key, id)])) == [c.Hash(key, id)];
  }

  /** Removing a key from both tiers leaves it uncached. */
  method RemoveFromBothTiers<O, D>(c: Cache<O, D>, key: string, id: string, now: int)
    modifies c
    ensures c.CachedType(key, id, now) == Uncached
  {
    var _ := c.Remove(key, id, true, true, false, false);
  }
}
