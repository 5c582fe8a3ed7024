# Two-tier object cache, modelled in Dafny

This project models the object cache of IMPFileManager: the `Cache` facade in
`Classes/Cache/Cache.swift` and the expiration policy `StorageExpiration` in
`Classes/Cache/Storage/Storage.swift`.

The facade keeps decoded objects in a memory tier and serialized data in a disk tier. Both tiers are
keyed by one computed key: the caller's base key, plus `@identifier` when an identifier is given.
Writes go to memory and, optionally, to disk. Reads try memory first. A disk hit that decodes is
copied back into memory. Removal, clearing and expiry sweeps act on each tier separately. The disk
sweep posts a notification that lists the removed files' names, but only when it removed something.

How the model is built:

- `Expiration` (`expiration.dfy`) resolves a `StorageExpiration` to an expiry instant
  (`estimatedExpirationSince`) and to the time left (`timeInterval`). Time is in whole seconds.
  `Date.distantPast`/`distantFuture` and the intervals `-infinity`/`+infinity` are explicit
  constructors. The resolution functions carry the properties that link them: the expiry equals
  now plus the time left, and `isExpired` holds exactly when that expiry is not after now.
- `CacheKeys` (`cache_keys.dfy`) holds `computedKey`. It has an inverse for base keys that contain
  no `@`, so such keys never collide. An unqualified base key `k@i` collides with `k` qualified by `i`, for every non-empty `i`.
- `FileUrls` (`file_urls.dfy`) holds `lastPathComponent` and the file URLs of cache files. It proves
  that a cleanup notification lists exactly the removed files' names.
- `SortedKeys` (`sorted_keys.dfy`) holds `Dictionary.keysSortedByValue`: every key once, sorted by value.
- `CacheTypes` (`cache_types.dfy`) holds `CacheType`, `CacheResult`, `CacheStoreResult` and how a
  backend error becomes a store result.
- `ObjectCache` (`cache.dfy`) holds the `Cache` class. Its fields are the two tiers as maps
  (memory: key to object, creation time and expiry; disk: key to data and the file's modification
  date, which holds the file's expiry) and the notifications posted so far. Each method states the
  whole new state and what its completion handler receives.
- `Scenarios` (`scenarios.dfy`) runs operations in sequence and proves what a caller observes.
  Examples: store then retrieve answers from memory; clearing memory then retrieving answers from
  disk and promotes the object back into memory.

Modelling conventions:

- The I/O queue is a FIFO whose blocks run at once, in submission order, so every operation is
  complete when its method returns.
- A completion handler becomes a returned `Option`. `None` means no handler was given, or the
  handler is never called.
- The storage backends are not part of this model. Their observable behaviour is written out in
  `ObjectCache`. An entry counts as cached while its expiry instant is after `now`. That is the
  `Date.isPast` test of `Classes/Cache/Utils/Date(tenses).swift`.
- The memory tier stamps a new entry with its own `memoryExpiration`. The disk tier stamps a new file
  with the expiration passed in, or with its own `diskExpiration` when none is passed.
- What a backend throws, and which keys its sweeps remove, are method parameters. A thrown error is
  `Raised(e)` for one of the cache's own errors and `Foreign` for any other error.
- The clock is a parameter (`now`).

A disk sweep alone does not uncache a key. `store` writes memory as well as disk
(Cache.swift:240), and `cachedType` asks memory first (Cache.swift:596). So after a store, a sweep
that deletes the key's file leaves the key cached while its memory entry is live
(`Scenarios.StoreThenDiskSweep`).

Names: Swift's `.none`, `.memory` and `.disk` are `Uncached`, `Memory` and `Disk` in `CacheType`, and
`Absent`, `FromMemory` and `FromDisk` in `CacheResult`. The renaming keeps them apart from `Option.None`
and from each other. `totalCostLimit` and `sizeLimit` are kept as the constructor sets them, but no
facade operation reads them: only the backends' eviction uses them, and that is not modelled.

## Model

| member | source | states |
|---|---|---|
| `Expiration.AddingTimeInterval` | Classes/Cache/Storage/Storage.swift:42-43 | adding a finite interval gives a finite instant that far from the reference; an infinite interval gives a sentinel |
| `Expiration.TimeIntervalSince` | Classes/Cache/Storage/Storage.swift:62 | the interval from `now` to an instant, which added back to `now` gives that instant |
| `Expiration.EstimatedExpirationSince` | Classes/Cache/Storage/Storage.swift:39-47 | only `.never` (or a distant-future date) expires in the distant future; only `.expired` (or a distant-past date) in the distant past; relative policies give a finite instant |
| `Expiration.EstimatedExpirationSinceNow` | Classes/Cache/Storage/Storage.swift:49-51 | the expiry seen at the current time is the current time plus `timeInterval` |
| `Expiration.TimeInterval` | Classes/Cache/Storage/Storage.swift:57-65 | the time left is +infinity exactly for `.never` and -infinity exactly for `.expired` (or the sentinel dates) |
| `Expiration.IsExpired` | Classes/Cache/Storage/Storage.swift:53-55 | a policy is expired iff its estimated expiration since now is not after now |
| `Expiration.IsPast` | Classes/Cache/Storage/Storage.swift:53-55 | the same `<= 0` test as `Date.isPast(referenceDate:)` in the Date extension of `Classes/Cache/Utils`: an instant is past iff it is the distant past or a finite instant not after the reference |
| `Expiration.ExpirationShift` | Classes/Cache/Storage/Storage.swift:39-47 | moving the reference date moves a `.seconds`/`.days` expiry by the same amount and leaves the other policies' expiry unchanged |
| `Expiration.TimeIntervalOfRelativePolicy` | Classes/Cache/Storage/Storage.swift:57-65 | only a `.date` policy's time left depends on the clock |
| `Expiration.DaysAreSeconds` | Classes/Cache/Storage/Storage.swift:39-65 | `.days(n)` resolves, in both functions and in `isExpired`, exactly as `.seconds(86400·n)` |
| `Expiration.ExpiredPolicies` | Classes/Cache/Storage/Storage.swift:53-65 | `.never` is never expired, `.expired` always is, `.seconds(s)` iff s ≤ 0, `.days(n)` iff n ≤ 0, `.date(r)` iff r ≤ now |
| `CacheKeys.ComputedKey` | Classes/Cache/Cache.swift:686-692 | the key is unchanged exactly when the identifier is empty; otherwise it is the key, `@`, then the identifier |
| `CacheKeys.ParseComputedKey` | Classes/Cache/Cache.swift:686-692 | splitting a computed key at its first `@` gives an `@`-free base key and the rest |
| `CacheKeys.ParseComputedKeyInverts` | Classes/Cache/Cache.swift:686-692 | for a base key without `@`, splitting the computed key gives back the key and the identifier |
| `CacheKeys.ComputedKeyInjective` | Classes/Cache/Cache.swift:686-692 | two pairs with `@`-free base keys share a computed key only if they are the same pair |
| `CacheKeys.DistinctIdentifiers` | Classes/Cache/Cache.swift:686-692 | distinct identifiers, the empty one included, give distinct computed keys for one base key |
| `CacheKeys.QualifiedKeysCanCollide` | Classes/Cache/Cache.swift:686-692 | the base key `a@b` with no identifier collides with `a` qualified by `b` |
| `FileUrls.LastPathComponent` | Classes/Cache/Cache.swift:536 | the last path component holds no `/` and is no longer than the path |
| `FileUrls.LastPathComponentIsFinalSegment` | Classes/Cache/Cache.swift:536 | the last path component is a suffix of the path, preceded by `/` unless it is the whole path |
| `FileUrls.FileUrl` | Classes/Cache/Cache.swift:672-676 | a cache file's path extends the directory with `/` |
| `FileUrls.LastPathComponentOfFileUrl` | Classes/Cache/Cache.swift:536 | the last component of a file's path is its `/`-free file name |
| `FileUrls.CacheFileUrls` | Classes/Cache/Cache.swift:527-532 | one URL per removed key, in order: the file named by that key in the directory |
| `FileUrls.CleanedHashes` | Classes/Cache/Cache.swift:536 | the cleaned hashes are the removed URLs' last path components, in order |
| `FileUrls.CacheFileUrlsAppend` | Classes/Cache/Cache.swift:527-532 | appending the two sweeps' URL lists equals the URLs of the appended key lists |
| `FileUrls.CleanedHashesAreFileNames` | Classes/Cache/Cache.swift:534-541 | the notification lists exactly the removed keys' file names, in order |
| `SortedKeys.InsertByValue` | Classes/Cache/Cache.swift:680-682 | inserting a key into a value-sorted list keeps it sorted and adds exactly that key |
| `SortedKeys.SortKeys` | Classes/Cache/Cache.swift:680-682 | the keys of a set, as a permutation sorted by their values |
| `SortedKeys.KeysSortedByValue` | Classes/Cache/Cache.swift:679-683 | the result is a permutation of the dictionary's keys in which no key follows one whose value it is ordered before |
| `SortedKeys.KeysSortedByValueListsEachKeyOnce` | Classes/Cache/Cache.swift:679-683 | the result has as many entries as the dictionary and no key twice |
| `CacheTypes.CacheType.Cached` | Classes/Cache/Cache.swift:48-53 | `cached` is true exactly for `.memory` and `.disk` |
| `CacheTypes.CacheResult.Image` | Classes/Cache/Cache.swift:89-95 | an object is returned exactly for `.disk` and `.memory`, and it is the one carried |
| `CacheTypes.CacheResult.Type` | Classes/Cache/Cache.swift:98-104 | the cache type names the case, and it is cached exactly when `image` is present |
| `CacheTypes.DiskStoreOutcome` | Classes/Cache/Cache.swift:321-337 | a disk write succeeds iff nothing was thrown; a cache error is passed on; any other error becomes `cannotConvertToData` |
| `CacheTypes.Deliver` | Classes/Cache/Cache.swift:338-340 | a handler receives the result exactly when one is given |
| `ObjectCache.MemoryCostLimit` | Classes/Cache/Cache.swift:197-200 | the cost limit is an eighth of physical memory, capped at `Int.max`; for every `UInt64` memory size the cap never applies |
| `ObjectCache.LiveEntries` | Classes/Cache/Cache.swift:511-513 | the memory sweep keeps exactly the unexpired entries, unchanged |
| `ObjectCache.Cache.constructor` | Classes/Cache/Cache.swift:192-210 | a new cache has an empty memory tier, the existing disk contents, the derived cost limit and no disk size limit |
| `ObjectCache.Cache.InMemory` | Classes/Cache/Cache.swift:596 | the memory tier holds the key iff it has an entry whose expiry is after `now` |
| `ObjectCache.Cache.OnDisk` | Classes/Cache/Cache.swift:597 | the disk tier holds the key iff it has a file whose expiry date is after `now` |
| `ObjectCache.Cache.CreatedAtMemoryCache` | Classes/Cache/Cache.swift:437-443 | the creation time of the memory entry exactly when memory has an entry for the key |
| `ObjectCache.Cache.ModificationDateInDiskCache` | Classes/Cache/Cache.swift:445-451 | the file's modification date exactly when disk has a file for the key |
| `ObjectCache.Cache.CachedType` | Classes/Cache/Cache.swift:591-599 | `.memory` iff memory holds the key, `.disk` iff only disk does, `.none` iff neither |
| `ObjectCache.Cache.IsCached` | Classes/Cache/Cache.swift:613-616 | cached iff either tier holds the computed key |
| `ObjectCache.Cache.Hash` | Classes/Cache/Cache.swift:630-634 | the cache path is the directory joined with the file name `hash` returns |
| `ObjectCache.Cache.CachePath` | Classes/Cache/Cache.swift:672-676 | the cache path extends the directory with `/`, and with flat file names what follows holds no further `/` |
| `ObjectCache.Cache.ModificationAt` | Classes/Cache/Cache.swift:384-386 | the memory entry's creation time if memory has the key, else the disk file's modification date, else nothing |
| `ObjectCache.Cache.RetrieveImageInMemoryCache` | Classes/Cache/Cache.swift:453-461 | an object is returned iff memory holds the key unexpired, and it is the stored object |
| `ObjectCache.Cache.RetrieveImageInDiskCache` | Classes/Cache/Cache.swift:463-486 | a cache error is reported as a failure; any other error means the handler is never called; otherwise the object is present iff the file is live and decodes |
| `ObjectCache.Cache.Store` | Classes/Cache/Cache.swift:228-272 | memory always gets the object under the computed key and memory always reports success; without `toDisk` disk is unchanged; data that cannot be serialized leaves disk unchanged and reports `cannotSerializeImage`; otherwise disk holds the data under the same key unless the write threw |
| `ObjectCache.Cache.SyncStoreToDisk` | Classes/Cache/Cache.swift:312-341 | the data is written under the computed key with the given or default expiration, unless the write threw; the handler receives the matching store result |
| `ObjectCache.Cache.Remove` | Classes/Cache/Cache.swift:357-382 | the computed key leaves memory only if `fromMemory` and disk only if `fromDisk`; nothing else changes; the handler is always called |
| `ObjectCache.Cache.Retrieve` | Classes/Cache/Cache.swift:388-433 | without a handler nothing happens; a memory hit answers `.memory` and changes nothing; on a memory miss a decodable live file answers `.disk` and is promoted into memory only, a miss answers `.none`, a cache error answers `.failure`, and disk never changes |
| `ObjectCache.Cache.ClearMemoryCache` | Classes/Cache/Cache.swift:491-493 | memory is empty |
| `ObjectCache.Cache.ClearDiskCache` | Classes/Cache/Cache.swift:499-508 | disk is empty unless removal threw; no notification is posted; the handler is called |
| `ObjectCache.Cache.CleanExpiredMemoryCache` | Classes/Cache/Cache.swift:511-513 | memory keeps exactly its unexpired entries |
| `ObjectCache.Cache.CleanExpiredDiskCache` | Classes/Cache/Cache.swift:524-549 | both sweeps' keys leave disk; one notification lists the last path components of the expired then the size-exceeded files, posted only if any were removed; a sweep that throws stops the rest, and then nothing is posted and the handler is not called |
| `Scenarios.HashNamesCachePathFile` | Classes/Cache/Cache.swift:630-676 | the file `hash` names is the last component of `cachePath` |
| `Scenarios.StoreThenRetrieve` | Classes/Cache/Cache.swift:388-399 | after a store, retrieving answers `.memory` with the stored object while the memory policy has not expired |
| `Scenarios.StoreUnderExpiredPolicy` | Classes/Cache/Cache.swift:591-599 | with an already-expired memory policy a fresh store is not reported as in memory |
| `Scenarios.ClearMemoryThenRetrieve` | Classes/Cache/Cache.swift:402-427 | after clearing memory, a stored key is answered from disk with the decoded object and is back in memory |
| `Scenarios.StoreThenDiskSweep` | Classes/Cache/Cache.swift:236-240 | after a store, a sweep that deletes the key's file leaves it off disk but still cached in memory while the memory policy is live, and posts one notification naming exactly the key's `hash` |
| `Scenarios.RemoveFromBothTiers` | Classes/Cache/Cache.swift:357-382 | removing from both tiers leaves the key uncached |

## Left out

- Memory and disk backends (`MemoryStorage.Backend`, `DiskStorage.Backend`): their code is not part of this model. The model does not cover cost-based eviction in memory, size accounting, file-name hashing, directory creation or how expiry is written to files. Only what the facade observes is modelled.
- ObjectCache.Cache.CleanExpiredDiskCache: the sweeps' choice of keys (expired files; oldest files beyond the size limit) is a parameter. It is required to name distinct files that are on disk, but it is not checked against the entries' expiry or size.
- ObjectCache.Cache.ModificationAt: the memory tier's `createdAt` and the disk tier's `modificationDate` answer for any entry the tier still holds, expired or not. So an expired memory entry that has not been swept yet still answers, and its date hides the date of a live disk file. The backends' code is not part of this model, and this reads their attribute queries as plain lookups.
- ObjectCache.Cache.Store: memory insertion never fails, but the memory backend may evict entries later under cost pressure; that eviction is not modelled.
- Reading an entry does not extend its expiry in either tier. The backends may do so, but their code is not part of this model.
- `calculateDiskStorageSize` (Cache.swift:640-654): it only passes on the disk backend's total size, and file sizes are not modelled; its `assertionFailure` branch (Cache.swift:649) is left out with it.
- `storeToDisk` (Cache.swift:293-310) is `syncStoreToDisk` run on the I/O queue. With the queue run at once, it is `ObjectCache.Cache.SyncStoreToDisk`.
- The `store(_:forKey:id:completionHandler:)` overload (Cache.swift:282-291) is `ObjectCache.Cache.Store` with no original data and `toDisk` set.
- The `@objc` `cleanExpiredDiskCache()` (Cache.swift:516-518) is `ObjectCache.Cache.CleanExpiredDiskCache` without a handler.
- Concurrency: the I/O dispatch queue, callback queues, the main queue and `NotificationCenter`. Blocks run at once in order. Notifications are recorded in `cleanedNotifications`.
- Platform hooks: UIKit lifecycle observers, `backgroundCleanExpiredDiskCache`, `deinit` and the reading of physical memory. Physical memory is a constructor parameter.
- Expiration.EstimatedExpirationSince: time is whole seconds, not `Double`. `distantPast`/`distantFuture` are sentinels, although Foundation gives them finite dates. `60 * 60 * 24 * days` is unbounded here, so the trap on `Int` overflow is not modelled.
- FileUrls.LastPathComponent: a path that ends in `/` gives an empty component, while Foundation skips a trailing slash. Cache file paths never end in `/`.
- The serializer (`Object.data(with:original:)`, `Object.image(with:)`, `toData`) is a pair of functions supplied to the cache. The NSImage implementation and the cost estimate are not modelled. A `toData` that throws is covered by the read fault parameter.
- `Delegate` and `DataTransformable` (Storage.swift:68-99): a weak-reference helper and a protocol with no behaviour to state.
- Error swallowing: `try?` on memory removal and `removeAll` is a no-op. The `assertionFailure` branches (Cache.swift:482) are modelled as "the handler is never called".
- `Classes/System/FileTreeItem.swift`, `System/FSWatch.swift` and the demo app: these are a file browser, file-system event plumbing and app wiring, outside the cache.
