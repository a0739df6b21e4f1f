/** The Redis cache: entries, and the locks that live in the same database. */
module RedisCaching {
  import opened Wrappers

  datatype CacheError = LockNotObtained | NotLoaded | NotSaved | NotRead | NotParsed | NotFlushed

  /** What goes wrong, if anything, inside one Load. */
  datatype LoadFault = Fine | LockFault | QueryFault | SaveFault

  /** What goes wrong, if anything, in looking up an entry. */
  datatype ReadFault = Readable | ReadFault | ParseFault

  function LoadError(fault: LoadFault): CacheError {
    match fault
    case LockFault => LockNotObtained
    case QueryFault => NotLoaded
    case _ => NotSaved
  }

  /** The lock of the key is free and is taken. */
  predicate Obtained(locks: set<string>, key: string, fault: LoadFault) {
    key !in locks && !fault.LockFault?
  }

  class RedisCache<V> {
    var entries: map<string, V>
    var locks: set<string>

    constructor ()
      ensures entries == map[] && locks == {}
    {
      entries, locks := map[], {};
    }

    /**
     Fills the entry with what the loader returns, or leaves it alone.  A key somebody else
     holds is never written.  The lock is free again on every path, unless it cannot be
     released; the result does not tell.
     */
    method Load(key: string, load: string -> V, fault: LoadFault, unlockFails: bool) returns (r: Result<V, CacheError>)
      modifies this
      ensures locks == old(locks) + if Obtained(old(locks), key, fault) && unlockFails then {key} else {}
      ensures r.Success? <==> key !in old(locks) && fault.Fine?
      ensures r.Success? ==> r.value == load(key) && entries == old(entries)[key := load(key)]
      ensures r.Failure? ==> entries == old(entries)
      ensures r.Failure? ==> r.error == if key in old(locks) then LockNotObtained else LoadError(fault)
      ensures fault.QueryFault? && key !in old(locks) ==> r == Failure(NotLoaded)
      ensures fault.SaveFault? && key !in old(locks) ==> r == Failure(NotSaved)
      ensures fault.LockFault? || key in old(locks) ==> r == Failure(LockNotObtained)
      ensures key !in old(locks) && !fault.LockFault? && unlockFails ==> locks == old(locks) + {key}
      ensures key in old(locks) || fault.LockFault? || !unlockFails ==> locks == old(locks)
    {
      if key in locks || fault.LockFault? {
        return Failure(LockNotObtained);
      }
      locks := locks + {key};
      if fault.QueryFault? {
        r := Failure(NotLoaded);
      } else {
        var value := load(key);
        if fault.SaveFault? {
          r := Failure(NotSaved);
        } else {
          entries := entries[key := value];
          r := Success(value);
        }
      }
      if !unlockFails { locks := locks - {key}; }
    }

    /** A readable entry is returned as it is, without a lock; only a missing one is loaded. */
    method GetOrLoad(key: string, load: string -> V, read: ReadFault, fault: LoadFault, unlockFails: bool)
      returns (r: Result<V, CacheError>)
      modifies this
      ensures locks == old(locks) +
        if !read.ReadFault? && key !in old(entries) && Obtained(old(locks), key, fault) && unlockFails then {key}
        else {}
      ensures read.ReadFault? ==> r == Failure(NotRead) && entries == old(entries)
      ensures read.ParseFault? && key in old(entries) ==> r == Failure(NotParsed) && entries == old(entries)
      ensures read.Readable? && key in old(entries) ==> r == Success(old(entries)[key]) && entries == old(entries)
      ensures !read.ReadFault? && key !in old(entries) ==>
        (r.Success? <==> key !in old(locks) && fault.Fine?)
      ensures !read.ReadFault? && key !in old(entries) && r.Success? ==>
        r.value == load(key) && entries == old(entries)[key := load(key)]
      ensures r.Failure? ==> entries == old(entries)
      ensures !read.ReadFault? && key !in old(entries) && r.Failure? ==>
        r.error == if key in old(locks) then LockNotObtained else LoadError(fault)
    {
      if read.ReadFault? {
        return Failure(NotRead);
      }
      if key in entries {
        return if read.ParseFault? then Failure(NotParsed) else Success(entries[key]);
      }
      r := Load(key, load, fault, unlockFails);
    }

    /** FlushDB empties the database, and with it the locks of Loads in progress. */
    method InvalidateAll(fails: bool) returns (error: Option<CacheError>)
      modifies this
      ensures fails ==> error == Some(NotFlushed) && entries == old(entries) && locks == old(locks)
      ensures !fails ==> error == None && entries == map[] && locks == {}
    {
      if fails {
        return Some(NotFlushed);
      }
      entries, locks := map[], {};
      error := None;
    }
  }
}
