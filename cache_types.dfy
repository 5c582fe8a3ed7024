/** The values the cache facade reports: where an object was found, what a lookup returned, how a store went. */
module CacheTypes {
  import opened Results

  /** Where a lookup was satisfied (`CacheType`: `.none`, `.memory`, `.disk`). */
  datatype CacheType = Uncached | Memory | Disk {

    /** `cached`: the object is held by one of the tiers. */
    predicate Cached()
      ensures Cached() <==> this != Uncached
    {
      match this
      case Memory | Disk => true
      case Uncached => false
    }
  }

  /** What a retrieval found (`CacheResult`: `.disk(object)`, `.memory(object)`, `.none`). */
  datatype CacheResult<O> = FromDisk(image: O) | FromMemory(image: O) | Absent {

    /** `image`: the object found, if any. */
    function Image(): (r: Option<O>)
      ensures r.Some? <==> !Absent?
      ensures r.Some? ==> r.value == image
    {
      match this
      case FromDisk(o) => Some(o)
      case FromMemory(o) => Some(o)
      case Absent => None
    }

    /** `cacheType`: the tier the object came from. */
    function Type(): (r: CacheType)
      ensures r.Cached() <==> Image().Some?
      ensures r == Memory <==> FromMemory?
      ensures r == Disk <==> FromDisk?
    {
      match this
      case FromDisk(_) => Disk
      case FromMemory(_) => Memory
      case Absent => Uncached
    }
  }

  /** The errors a disk operation reports (`DehancerError.cacheError` and the storage backend's own errors). */
  datatype CacheError =
    | CannotSerializeImage
    | CannotConvertToData
    | StorageFailure(reason: string)

  /**
   * What the storage backend threw: an error of the cache's own error type, which is passed on,
   * or any other error.
   */
  datatype Fault = Raised(error: CacheError) | Foreign

  /** `CacheStoreResult`: the memory result always succeeds; the disk result may carry an error. */
  datatype CacheStoreResult = CacheStoreResult(memoryCacheResult: Outcome<CacheError>, diskCacheResult: Outcome<CacheError>)

  /** The outcome `syncStoreToDisk` reports for a backend write that threw `fault`, if it threw. */
  function DiskStoreOutcome(fault: Option<Fault>): (r: Outcome<CacheError>)
    ensures r == Pass <==> fault == None
    ensures fault == Some(Foreign) ==> r == Fail(CannotConvertToData)
    ensures forall e :: fault == Some(Raised(e)) ==> r == Fail(e)
  {
    match fault
    case None => Pass
    case Some(Raised(e)) => Fail(e)
    case Some(Foreign) => Fail(CannotConvertToData)
  }

  /** A completion handler receives `result` if one was given; `None` stands for "not called". */
  function Deliver<T>(hasHandler: bool, result: T): (r: Option<T>)
    ensures r.Some? <==> hasHandler
    ensures r.Some? ==> r.value == result
  {
    if hasHandler then Some(result) else None
  }
}
