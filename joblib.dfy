/**
 * The part of joblib's `Memory` that the caching policy relies on: a
 * `Memory` object is a view of the store in one cache directory, with
 * `call_and_shelve`, `clear`, `get` and `reduce_size` as methods over the
 * shared file system.
 */
module Joblib {
  import opened Values
  import opened Stores
  import opened FileSystems

  /** A joblib `Memory` object: a view of the store in one cache directory. */
  class Memory {
    const location: string
    const fs: FileSystem
    /** The attribute `caching_memory_allocation`; `None` until it is assigned. */
    var cachingMemoryAllocation: Option<int>

    constructor (location: string, fs: FileSystem)
      ensures this.location == location && this.fs == fs && cachingMemoryAllocation == None
    {
      this.location := location;
      this.fs := fs;
      cachingMemoryAllocation := None;
    }

    /** `reduce_size(bytes_limit=limit)`: evicts oldest entries until the store fits. */
    method ReduceSize(limit: int)
      requires fs.disk.Valid()
      modifies fs
      ensures fs.disk.Valid()
      ensures fs.disk == old(fs.disk).Put(location, Evict(old(fs.disk.StoreAt(location)), limit))
    {
      var s := fs.disk.StoreAt(location);
      ghost var s0 := s;
      while Size(s) > limit && s.order != []
        invariant s.Valid()
        invariant Evict(s, limit) == Evict(s0, limit)
        decreases |s.order|
      {
        s := DropOldest(s);
      }
      fs.disk := fs.disk.Put(location, s);
    }
  }

  /**
   * The key joblib files a call of `func` under when `ignore` names the
   * parameters to leave out: the ignored names are dropped from the keyword
   * arguments and recorded as ignored.
   */
  function KeyFor(func: string, args: seq<Value>, kwargs: Kwargs, ignore: seq<string>): CallKey {
    var ignored := set n | n in ignore;
    CallKey(func, args, kwargs - ignored, ignored)
  }

  /** What `memory.cache(func, ignore=ignore)` returns. */
  datatype MemorizedFunc = MemorizedFunc(memory: Memory, func: TrackedFunction, ignore: seq<string>) {

    /** The key of a call of this function. */
    function KeyOf(args: seq<Value>, kwargs: Kwargs): CallKey {
      KeyFor(func.id, args, kwargs, ignore)
    }

    /**
     * `call_and_shelve(*args, **kwargs)`: runs the function and stores its
     * result when the store holds no entry for the call, and returns a
     * handle on the entry.
     */
    method CallAndShelve(args: seq<Value>, kwargs: Kwargs) returns (res: MemorizedResult)
      requires memory.fs.disk.Valid()
      modifies memory.fs, func
      ensures memory.fs.disk.Valid()
      ensures res == MemorizedResult(memory, KeyOf(args, kwargs))
      ensures var v := func.body(args, kwargs);
        memory.fs.disk == old(memory.fs.disk).Put(memory.location,
          Shelve(old(memory.fs.disk.StoreAt(memory.location)), KeyOf(args, kwargs), Item(v, memory.fs.probes.sizeOf(v))))
      ensures func.invocations == old(func.invocations)
        + if KeyOf(args, kwargs) in old(memory.fs.disk.StoreAt(memory.location)).entries then 0 else 1
    {
      var k := KeyOf(args, kwargs);
      var s := memory.fs.disk.StoreAt(memory.location);
      if k !in s.entries {
        var v := func.Invoke(args, kwargs);
        memory.fs.disk := memory.fs.disk.Put(memory.location, Shelve(s, k, Item(v, memory.fs.probes.sizeOf(v))));
      } else {
        assert memory.fs.disk.caches[memory.location := s] == memory.fs.disk.caches;
      }
      res := MemorizedResult(memory, k);
    }
  }

  /** What `call_and_shelve` returns: a handle on one entry of one store. */
  datatype MemorizedResult = MemorizedResult(memory: Memory, key: CallKey) {

    /** `clear()`: deletes this entry; nothing happens when it is absent. */
    method Clear()
      requires memory.fs.disk.Valid()
      modifies memory.fs
      ensures memory.fs.disk.Valid()
      ensures memory.fs.disk == old(memory.fs.disk).Put(memory.location, Forget(old(memory.fs.disk.StoreAt(memory.location)), key))
    {
      memory.fs.disk := memory.fs.disk.Put(memory.location, Forget(memory.fs.disk.StoreAt(memory.location), key));
    }

    /** `get()`: the stored value, or a KeyError when the entry is gone. */
    method Get() returns (r: Result<Value, CacheError>)
      ensures key in memory.fs.disk.StoreAt(memory.location).entries <==> r.Ok?
      ensures r.Ok? ==> r.value == memory.fs.disk.StoreAt(memory.location).entries[key].value
      ensures r.Err? ==> r.error == MissingEntry(key)
    {
      var s := memory.fs.disk.StoreAt(memory.location);
      if key in s.entries {
        r := Ok(s.entries[key].value);
      } else {
        r := Err(MissingEntry(key));
      }
    }
  }
}
