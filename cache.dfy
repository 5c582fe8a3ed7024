/**
 * The two-tier object cache facade (`Cache`): a memory tier and a disk tier keyed by one computed key.
 *
 * Each tier is a map from computed key to entry. The dispatch queue that runs disk work is a FIFO whose
 * blocks run at once, in order, so every operation completes before it returns. A completion handler
 * becomes a returned `Option`: `None` when there is no handler or it is never called. What the storage
 * backends throw and what their sweeps remove are passed in as parameters.
 */
module ObjectCache {
  import opened Results
  import opened Expiration
  import opened CacheKeys
  import opened FileUrls
  import opened CacheTypes

  /** The object type's serializer: `Object.data(with:original:)` and `Object.image(with:)`. */
  datatype Serializer<!O, !D> = Serializer(data: (O, Option<D>) -> Option<D>, image: D -> Option<O>)

  /** A memory-tier entry: the object, when it was stored, and when it expires. */
  datatype MemoryEntry<O> = MemoryEntry(value: O, createdAt: int, expiration: Instant)

  /** A disk-tier entry: the serialized data and the file's modification date, which holds its expiry. */
  datatype DiskEntry<D> = DiskEntry(data: D, modificationDate: Instant)

  const IntMax: int := 0x7FFF_FFFF_FFFF_FFFF

  /** The memory tier's cost limit: an eighth of physical memory, capped at `Int.max`. */
  function MemoryCostLimit(physicalMemory: nat): (r: nat)
    ensures r <= IntMax && r <= physicalMemory / 8
    ensures physicalMemory / 8 <= IntMax ==> r == physicalMemory / 8
    ensures physicalMemory / 8 > IntMax ==> r == IntMax
    // A `UInt64` memory size never reaches the cap.
    ensures physicalMemory < 0x1_0000_0000_0000_0000 ==> r == physicalMemory / 8
  {
    if physicalMemory / 8 > IntMax then IntMax else physicalMemory / 8
  }

  /** The memory entries that have not expired at `now` (what the memory tier's expiry sweep keeps). */
  function LiveEntries<O>(m: map<string, MemoryEntry<O>>, now: int): (r: map<string, MemoryEntry<O>>)
    ensures forall k :: k in r <==> k in m && !IsPast(m[k].expiration, now)
    ensures forall k :: k in r ==> r[k] == m[k]
  {
    map k | k in m && !IsPast(m[k].expiration, now) :: m[k]
  }

  function KeySet(keys: seq<string>): set<string> {
    set k | k in keys
  }

  /** No key is listed twice. */
  predicate Distinct(keys: seq<string>) {
    forall i, j :: 0 <= i < j < |keys| ==> keys[i] != keys[j]
  }

  class Cache<O, D> {
    const serializer: Serializer<O, D>
    /** The disk tier's directory and its key-to-file-name digest (`cacheFileName(forKey:)`). */
    const directory: string
    const cacheFileName: string -> string
    /** The expiration each tier applies to what it stores. */
    const memoryExpiration: StorageExpiration
    const diskExpiration: StorageExpiration
    const totalCostLimit: nat
    const sizeLimit: nat

    var memory: map<string, MemoryEntry<O>>
    var disk: map<string, DiskEntry<D>>
    /** The file names carried by each "disk cache cleaned" notification posted so far. */
    var cleanedNotifications: seq<seq<string>>

    /** File names are plain names, never paths (the digest is rendered in hexadecimal). */
    ghost predicate FileNamesAreFlat() {
      forall k :: PathSeparator !in cacheFileName(k)
    }

    /** `init(id:path:)`: an empty memory tier over whatever the cache directory already holds. */
    constructor (serializer: Serializer<O, D>, directory: string, cacheFileName: string -> string,
                 physicalMemory: nat, memoryExpiration: StorageExpiration, diskExpiration: StorageExpiration,
                 persisted: map<string, DiskEntry<D>>)
      ensures this.serializer == serializer && this.directory == directory && this.cacheFileName == cacheFileName
      ensures this.memoryExpiration == memoryExpiration && this.diskExpiration == diskExpiration
      ensures totalCostLimit == MemoryCostLimit(physicalMemory) && sizeLimit == 0
      ensures memory == map[] && disk == persisted && cleanedNotifications == []
    {
      this.serializer := serializer;
      this.directory := directory;
      this.cacheFileName := cacheFileName;
      this.memoryExpiration := memoryExpiration;
      this.diskExpiration := diskExpiration;
      totalCostLimit := MemoryCostLimit(physicalMemory);
      sizeLimit := 0;
      memory := map[];
      disk := persisted;
      cleanedNotifications := [];
    }

    /** The memory tier holds an unexpired entry for `computed` (its `isCached`). */
    predicate InMemory(computed: string, now: int)
      reads this
      ensures InMemory(computed, now) ==> computed in memory
      ensures computed in memory ==>
        (InMemory(computed, now) <==> memory[computed].expiration == DistantFuture ||
                                      (memory[computed].expiration.At? && now < memory[computed].expiration.seconds))
    {
      computed in memory && !IsPast(memory[computed].expiration, now)
    }

    /** The disk tier holds an unexpired file for `computed` (its `isCached`). */
    predicate OnDisk(computed: string, now: int)
      reads this
      ensures OnDisk(computed, now) ==> computed in disk
      ensures computed in disk ==>
        (OnDisk(computed, now) <==> disk[computed].modificationDate == DistantFuture ||
                                    (disk[computed].modificationDate.At? && now < disk[computed].modificationDate.seconds))
    {
      computed in disk && !IsPast(disk[computed].modificationDate, now)
    }

    // Queries

    /** `cachedType`: memory first, then disk. */
    function CachedType(key: string, id: string, now: int): (r: CacheType)
      reads this
      ensures r == Memory <==> InMemory(ComputedKey(key, id), now)
      ensures r == Disk <==> !InMemory(ComputedKey(key, id), now) && OnDisk(ComputedKey(key, id), now)
      ensures r == Uncached <==> !InMemory(ComputedKey(key, id), now) && !OnDisk(ComputedKey(key, id), now)
    {
      var computed := ComputedKey(key, id);
      if InMemory(computed, now) then Memory
      else if OnDisk(computed, now) then Disk
      else Uncached
    }

    /** `isCached`: either tier holds the key. */
    predicate IsCached(key: string, id: string, now: int)
      reads this
      ensures IsCached(key, id, now) <==> InMemory(ComputedKey(key, id), now) || OnDisk(ComputedKey(key, id), now)
    {
      CachedType(key, id, now).Cached()
    }

    /** `hash`: the name of the file that holds the key on disk. */
    function Hash(key: string, id: string): (r: string)
      ensures CachePath(key, id) == FileUrl(directory, r)
    {
      cacheFileName(ComputedKey(key, id))
    }

    /** `cachePath`: where the key's file lies, whether or not it exists. */
    function CachePath(key: string, id: string): (r: string)
      ensures directory < r && r[|directory|] == PathSeparator
      ensures FileNamesAreFlat() ==> PathSeparator !in r[|directory| + 1..]
    {
      FileUrl(directory, cacheFileName(ComputedKey(key, id)))
    }

    /** The memory tier's `createdAt(forKey:)`. */
    function CreatedAtMemoryCache(computed: string): (r: Option<Instant>)
      reads this
      ensures r.Some? <==> computed in memory
      ensures r.Some? ==> r.value.At? && r.value.seconds == memory[computed].createdAt
    {
      if computed in memory then Some(At(memory[computed].createdAt)) else None
    }

    /** The disk tier's `modificationDate(forKey:)`. */
    function ModificationDateInDiskCache(computed: string): (r: Option<Instant>)
      reads this
      ensures r.Some? <==> computed in disk
      ensures r.Some? ==> r.value == disk[computed].modificationDate
    {
      if computed in disk then Some(disk[computed].modificationDate) else None
    }

    /** `modificationAt`: the memory entry's creation time, else the disk file's modification date. */
    function ModificationAt(key: string, id: string): (r: Option<Instant>)
      reads this
      ensures ComputedKey(key, id) in memory ==> r == Some(At(memory[ComputedKey(key, id)].createdAt))
      ensures ComputedKey(key, id) !in memory && ComputedKey(key, id) in disk ==>
        r == Some(disk[ComputedKey(key, id)].modificationDate)
      ensures r == None <==> ComputedKey(key, id) !in memory && ComputedKey(key, id) !in disk
    {
      var computed := ComputedKey(key, id);
      CreatedAtMemoryCache(computed).OrElse(ModificationDateInDiskCache(computed))
    }

    /** `retrieveImageInMemoryCache`: the object of an unexpired memory entry. */
    function RetrieveImageInMemoryCache(key: string, id: string, now: int): (r: Option<O>)
      reads this
      ensures r.Some? <==> InMemory(ComputedKey(key, id), now)
      ensures r.Some? ==> r.value == memory[ComputedKey(key, id)].value
    {
      var computed := ComputedKey(key, id);
      if InMemory(computed, now) then Some(memory[computed].value) else None
    }

    /**
     * `retrieveImageInDiskCache`: reads the key's file and decodes it. `fault` is what reading threw;
     * a foreign error reaches the assertion-failure branch and the handler is never called (`None`).
     */
    function RetrieveImageInDiskCache(key: string, id: string, now: int, fault: Option<Fault>): (r: Option<Result<Option<O>, CacheError>>)
      reads this
      ensures r == None <==> fault == Some(Foreign)
      ensures forall e :: fault == Some(Raised(e)) ==> r == Some(Failure(e))
      ensures fault == None ==> r.Some? && r.value.Success?
      ensures fault == None ==> (r.value.value.Some? <==>
        OnDisk(ComputedKey(key, id), now) && serializer.image(disk[ComputedKey(key, id)].data).Some?)
      ensures fault == None && r.value.value.Some? ==> r.value.value == serializer.image(disk[ComputedKey(key, id)].data)
    {
      var computed := ComputedKey(key, id);
      match fault
      case Some(Raised(e)) => Some(Failure(e))
      case Some(Foreign) => None
      case None =>
        if OnDisk(computed, now) then Some(Success(serializer.image(disk[computed].data)))
        else Some(Success(None))
    }

    // Storing

    /**
     * `store`: puts the object into memory under the computed key; with `toDisk`, serializes it and
     * writes the data to disk under the same key. `diskFault` is what the disk write throws, if anything.
     */
    method Store(image: O, original: Option<D>, key: string, id: string, toDisk: bool,
                 now: int, diskFault: Option<Fault>, hasHandler: bool)
      returns (reported: Option<CacheStoreResult>)
      modifies this
      ensures memory == old(memory)[ComputedKey(key, id) := MemoryEntry(image, now, EstimatedExpirationSince(memoryExpiration, now))]
      ensures cleanedNotifications == old(cleanedNotifications)
      ensures reported.Some? <==> hasHandler
      ensures reported.Some? ==> reported.value.memoryCacheResult == Pass
      ensures !toDisk ==> disk == old(disk) && reported == Deliver(hasHandler, CacheStoreResult(Pass, Pass))
      ensures toDisk && serializer.data(image, original) == None ==>
        disk == old(disk) && reported == Deliver(hasHandler, CacheStoreResult(Pass, Fail(CannotSerializeImage)))
      ensures toDisk && serializer.data(image, original).Some? ==>
        && disk == (if diskFault == None
                    then old(disk)[ComputedKey(key, id) := DiskEntry(serializer.data(image, original).value, EstimatedExpirationSince(diskExpiration, now))]
                    else old(disk))
        && reported == Deliver(hasHandler, CacheStoreResult(Pass, DiskStoreOutcome(diskFault)))
    {
      var computed := ComputedKey(key, id);
      memory := memory[computed := MemoryEntry(image, now, EstimatedExpirationSince(memoryExpiration, now))];
      if !toDisk {
        reported := Deliver(hasHandler, CacheStoreResult(Pass, Pass));
        return;
      }
      var data := serializer.data(image, original);
      if data.Some? {
        reported := SyncStoreToDisk(data.value, key, id, None, now, diskFault, hasHandler);
      } else {
        reported := Deliver(hasHandler, CacheStoreResult(Pass, Fail(CannotSerializeImage)));
      }
    }

    /**
     * `syncStoreToDisk`: writes the data under the computed key, expiring by `expiration` or else by the
     * disk tier's own policy. A write that throws leaves the disk unchanged and is reported as a failure.
     */
    method SyncStoreToDisk(data: D, key: string, id: string, expiration: Option<StorageExpiration>,
                           now: int, fault: Option<Fault>, hasHandler: bool)
      returns (reported: Option<CacheStoreResult>)
      modifies this`disk
      ensures disk == if fault == None
                      then old(disk)[ComputedKey(key, id) := DiskEntry(data, EstimatedExpirationSince(expiration.GetOr(diskExpiration), now))]
                      else old(disk)
      ensures reported == Deliver(hasHandler, CacheStoreResult(Pass, DiskStoreOutcome(fault)))
    {
      var computed := ComputedKey(key, id);
      if fault == None {
        disk := disk[computed := DiskEntry(data, EstimatedExpirationSince(expiration.GetOr(diskExpiration), now))];
      }
      reported := Deliver(hasHandler, CacheStoreResult(Pass, DiskStoreOutcome(fault)));
    }

    // Removing

    /**
     * `remove`: drops the computed key from memory if `fromMemory` and from disk if `fromDisk`.
     * A disk removal that throws (`diskFault`) is swallowed; the handler is called either way.
     */
    method Remove(key: string, id: string, fromMemory: bool, fromDisk: bool, diskFault: bool, hasHandler: bool)
      returns (handlerCalled: bool)
      modifies this
      ensures memory == if fromMemory then old(memory) - {ComputedKey(key, id)} else old(memory)
      ensures disk == if fromDisk && !diskFault then old(disk) - {ComputedKey(key, id)} else old(disk)
      ensures cleanedNotifications == old(cleanedNotifications)
      ensures handlerCalled == hasHandler
    {
      var computed := ComputedKey(key, id);
      if fromMemory {
        memory := memory - {computed};
      }
      if fromDisk && !diskFault {
        disk := disk - {computed};
      }
      handlerCalled := hasHandler;
    }

    // Retrieving

    /**
     * `retrieve`: answers from memory if it can; otherwise reads the disk and, when the data decodes,
     * stores the object into memory only and answers `.disk`. `diskFault` is what reading the disk throws.
     */
    method Retrieve(key: string, id: string, now: int, diskFault: Option<Fault>, hasHandler: bool)
      returns (delivered: Option<Result<CacheResult<O>, CacheError>>)
      modifies this`memory
      ensures disk == old(disk) && cleanedNotifications == old(cleanedNotifications)
      ensures !hasHandler ==> delivered == None && memory == old(memory)
      ensures hasHandler && old(InMemory(ComputedKey(key, id), now)) ==>
        delivered == Some(Success(FromMemory(old(memory)[ComputedKey(key, id)].value))) && memory == old(memory)
      ensures hasHandler && !old(InMemory(ComputedKey(key, id), now)) ==>
        match old(RetrieveImageInDiskCache(key, id, now, diskFault))
        case None => delivered == None && memory == old(memory)
        case Some(Failure(e)) => delivered == Some(Failure(e)) && memory == old(memory)
        case Some(Success(None)) => delivered == Some(Success(Absent)) && memory == old(memory)
        case Some(Success(Some(v))) =>
          && delivered == Some(Success(FromDisk(v)))
          && memory == old(memory)[ComputedKey(key, id) := MemoryEntry(v, now, EstimatedExpirationSince(memoryExpiration, now))]
    {
      if !hasHandler {
        return None;
      }
      var cached := RetrieveImageInMemoryCache(key, id, now);
      if cached.Some? {
        return Some(Success(FromMemory(cached.value)));
      }
      var loaded := RetrieveImageInDiskCache(key, id, now, diskFault);
      match loaded
      case None =>
        delivered := None;
      case Some(Failure(e)) =>
        delivered := Some(Failure(e));
      case Some(Success(None)) =>
        delivered := Some(Success(Absent));
      case Some(Success(Some(v))) =>
        var computed := ComputedKey(key, id);
        memory := memory[computed := MemoryEntry(v, now, EstimatedExpirationSince(memoryExpiration, now))];
        delivered := Some(Success(FromDisk(v)));
    }

    // Cleaning

    /** `clearMemoryCache`: empties the memory tier. */
    method ClearMemoryCache()
      modifies this`memory
      ensures memory == map[]
    {
      memory := map[];
    }

    /** `clearDiskCache`: empties the disk tier unless removing throws; never posts a notification. */
    method ClearDiskCache(fault: bool, hasHandler: bool) returns (handlerCalled: bool)
      modifies this`disk
      ensures disk == if fault then old(disk) else map[]
      ensures handlerCalled == hasHandler
    {
      if !fault {
        disk := map[];
      }
      handlerCalled := hasHandler;
    }

    /** `cleanExpiredMemoryCache`: drops the memory entries that have expired at `now`. */
    method CleanExpiredMemoryCache(now: int)
      modifies this`memory
      ensures memory == LiveEntries(old(memory), now)
    {
      memory := LiveEntries(memory, now);
    }

    /**
     * `cleanExpiredDiskCache`: the disk tier's expiry sweep and size sweep remove the keys listed in
     * `removedExpired` and `removedSizeExceeded` (`None` when the sweep throws, which abandons the rest).
     * When both complete and removed anything, one notification carries the last path component of each
     * removed file, expired ones first.
     */
    method CleanExpiredDiskCache(removedExpired: Option<seq<string>>, removedSizeExceeded: Option<seq<string>>, hasHandler: bool)
      returns (handlerCalled: bool)
      // Each sweep reports files it deleted: each one was on disk once and is not reported twice.
      requires removedExpired.Some? ==> Distinct(removedExpired.value) && KeySet(removedExpired.value) <= disk.Keys
      requires removedExpired.Some? && removedSizeExceeded.Some? ==>
        && Distinct(removedSizeExceeded.value)
        && KeySet(removedSizeExceeded.value) <= disk.Keys - KeySet(removedExpired.value)
      modifies this`disk, this`cleanedNotifications
      ensures removedExpired == None ==>
        disk == old(disk) && cleanedNotifications == old(cleanedNotifications) && !handlerCalled
      ensures removedExpired.Some? && removedSizeExceeded == None ==>
        && disk == old(disk) - KeySet(removedExpired.value)
        && cleanedNotifications == old(cleanedNotifications) && !handlerCalled
      ensures removedExpired.Some? && removedSizeExceeded.Some? ==>
        var keys := removedExpired.value + removedSizeExceeded.value;
        && disk == old(disk) - KeySet(removedExpired.value) - KeySet(removedSizeExceeded.value)
        && handlerCalled == hasHandler
        && cleanedNotifications == old(cleanedNotifications) +
             (if keys == [] then [] else [CleanedHashes(CacheFileUrls(directory, cacheFileName, keys))])
    {
      if removedExpired == None {
        return false;
      }
      var removed: seq<string> := [];
      var expiredUrls := CacheFileUrls(directory, cacheFileName, removedExpired.value);
      disk := disk - KeySet(removedExpired.value);
      removed := removed + expiredUrls;
      if removedSizeExceeded == None {
        return false;
      }
      var sizeExceededUrls := CacheFileUrls(directory, cacheFileName, removedSizeExceeded.value);
      disk := disk - KeySet(removedSizeExceeded.value);
      removed := removed + sizeExceededUrls;
      assert removed == expiredUrls + sizeExceededUrls;
      CacheFileUrlsAppend(directory, cacheFileName, removedExpired.value, removedSizeExceeded.value);
      if removed != [] {
        cleanedNotifications := cleanedNotifications + [CleanedHashes(removed)];
      }
      handlerCalled := hasHandler;
    }
  }
}
