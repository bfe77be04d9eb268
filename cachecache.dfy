/**
 * The caching policy of cachecache: the `Cacher` object with its global
 * store, the per-call decision procedure of its decorated functions
 * (`cached_func`) and the store set-up routine `initiate_joblib_cache`.
 */
module CacheCache {
  import opened Values
  import opened Stores
  import opened FileSystems
  import opened Joblib

  /** The keyword arguments that steer caching, in the order the ignore list uses. */
  const CONTROL_NAMES: seq<string> := ["again", "cache_results", "cache_path"]

  /** The byte reserve the default allowance keeps free: 1 GB. */
  const RESERVE_BYTES: int := 1_000_000_000

  /** `xs` is `ys` with some elements left out, order kept. */
  ghost predicate IsSubsequence<T>(xs: seq<T>, ys: seq<T>)
    decreases |ys|
  {
    if xs == [] then true
    else if ys == [] then false
    else (xs[0] == ys[0] && IsSubsequence(xs[1..], ys[1..])) || IsSubsequence(xs, ys[1..])
  }

  /** `[k for k in names if k in kwargs]` */
  function Present(names: seq<string>, kwargs: Kwargs): (r: seq<string>)
    ensures forall n :: n in r <==> n in names && n in kwargs
    ensures IsSubsequence(r, names)
    ensures Distinct(names) ==> Distinct(r)
  {
    if names == [] then []
    else if names[0] in kwargs then
      var rest := Present(names[1..], kwargs);
      assert ([names[0]] + rest)[1..] == rest;
      [names[0]] + rest
    else Present(names[1..], kwargs)
  }

  /**
   * `arguments_to_ignore`: exactly the control names that occur as keys of
   * the incoming keyword arguments, each once, in the fixed order of
   * CONTROL_NAMES.
   */
  function IgnoreList(kwargs: Kwargs): (r: seq<string>)
    ensures forall n :: n in r <==> n in CONTROL_NAMES && n in kwargs
    ensures IsSubsequence(r, CONTROL_NAMES)
    ensures Distinct(r)
  {
    assert Distinct(CONTROL_NAMES[2..]);
    assert Distinct(CONTROL_NAMES[1..]);
    Present(CONTROL_NAMES, kwargs)
  }

  /**
   * The keyword arguments forwarded to the function and to the store: every
   * entry of `kwargs` except the control names, each with its value.
   */
  function Strip(kwargs: Kwargs): (r: Kwargs)
    ensures forall n :: n in r <==> n in kwargs && n !in CONTROL_NAMES
    ensures forall n :: n in r ==> r[n] == kwargs[n]
  {
    kwargs - (set n | n in CONTROL_NAMES)
  }

  /** `kwargs.get(name, default)` */
  function Flag(kwargs: Kwargs, name: string, default: Value): Value {
    if name in kwargs then kwargs[name] else default
  }

  function CacheResultsFlag(kwargs: Kwargs): Value { Flag(kwargs, "cache_results", BoolV(true)) }

  function AgainFlag(kwargs: Kwargs): Value { Flag(kwargs, "again", BoolV(false)) }

  function CachePathFlag(kwargs: Kwargs): Value { Flag(kwargs, "cache_path", NoneV) }

  /**
   * The key a cached call is filed under: the function, the positional
   * arguments, the forwarded keyword arguments, and which control names the
   * call passed (the ignore list handed to the store). The store's dropping
   * of the ignored names leaves the forwarded arguments whole, since they
   * were popped already.
   */
  function KeyOfCall(fid: string, args: seq<Value>, kwargs: Kwargs): (k: CallKey)
    ensures k == CallKey(fid, args, Strip(kwargs), set n | n in IgnoreList(kwargs))
  {
    assert Strip(kwargs) - (set n | n in IgnoreList(kwargs)) == Strip(kwargs);
    KeyFor(fid, args, Strip(kwargs), IgnoreList(kwargs))
  }

  /**
   * Two calls of one function share a store entry exactly when they have the
   * same positional arguments and forwarded keyword arguments and pass the
   * same control names, whatever the control values.
   */
  lemma SameEntryIff(fid: string, args: seq<Value>, args': seq<Value>, kwargs: Kwargs, kwargs': Kwargs)
    ensures KeyOfCall(fid, args, kwargs) == KeyOfCall(fid, args', kwargs') <==>
      && args == args'
      && Strip(kwargs) == Strip(kwargs')
      && ("again" in kwargs <==> "again" in kwargs')
      && ("cache_results" in kwargs <==> "cache_results" in kwargs')
      && ("cache_path" in kwargs <==> "cache_path" in kwargs')
  {
    var ig := set n | n in IgnoreList(kwargs);
    var ig' := set n | n in IgnoreList(kwargs');
    if ("again" in kwargs <==> "again" in kwargs')
       && ("cache_results" in kwargs <==> "cache_results" in kwargs')
       && ("cache_path" in kwargs <==> "cache_path" in kwargs') {
      forall n ensures n in ig <==> n in ig' {
        assert n in CONTROL_NAMES ==> n == "again" || n == "cache_results" || n == "cache_path";
      }
      assert ig == ig';
    }
    if ig == ig' {
      assert "again" in ig <==> "again" in ig';
      assert "cache_results" in ig <==> "cache_results" in ig';
      assert "cache_path" in ig <==> "cache_path" in ig';
    }
  }

  /** The call's keyword dictionary, which `cached_func` changes in place. */
  class KwargsDict {
    var items: Kwargs

    constructor (items: Kwargs)
      ensures this.items == items
    {
      this.items := items;
    }

    /** `dict.pop(name, default)` */
    method Pop(name: string, default: Value) returns (v: Value)
      modifies this
      ensures v == Flag(old(items), name, default)
      ensures items == old(items) - {name}
    {
      v := if name in items then items[name] else default;
      items := items - {name};
    }
  }

  /**
   * The preformatting step of `cached_func`: the ignore list, then the three
   * pops with their defaults.
   * The flags are the control values the call carried, or `True`, `False` and
   * None; what is left of the dictionary holds no control name and every
   * other entry unchanged.
   */
  method PreformatKwargs(kwargs: Kwargs)
    returns (argumentsToIgnore: seq<string>, cacheResults: Value, again: Value, cachePath: Value, rest: Kwargs)
    ensures argumentsToIgnore == IgnoreList(kwargs)
    ensures cacheResults == CacheResultsFlag(kwargs)
    ensures again == AgainFlag(kwargs)
    ensures cachePath == CachePathFlag(kwargs)
    ensures rest == Strip(kwargs)
  {
    var kw := new KwargsDict(kwargs);
    argumentsToIgnore := IgnoreList(kw.items);
    cacheResults := kw.Pop("cache_results", BoolV(true));
    again := kw.Pop("again", BoolV(false));
    cachePath := kw.Pop("cache_path", NoneV);
    rest := kw.items;
    PoppingEachControlNameStrips(kwargs);
  }

  lemma PoppingEachControlNameStrips(kwargs: Kwargs)
    ensures kwargs - {"cache_results"} - {"again"} - {"cache_path"} == Strip(kwargs)
  {
  }

  /**
   * How one non-bypassed call relates the store it used before and after:
   * the store gains exactly the call's key, keeps every other entry, and
   * holds the returned value under the key; without `again` a present key is
   * a hit (stored value, no run, store unchanged) and an absent key runs the
   * body once; with `again` the result is a fresh run, and the body runs twice
   * when the key was absent.
   */
  ghost predicate Served(before: Store, after: Store, k: CallKey, again: bool, v: Value, bytes: nat,
                         result: Value, runs: nat)
  {
    && after.Valid()
    && after.entries.Keys == before.entries.Keys + {k}
    && (forall k' :: k' in before.entries && k' != k ==> after.entries[k'] == before.entries[k'])
    && after.entries[k].value == result
    && if !again && k in before.entries then
         result == before.entries[k].value && runs == 0 && after == before
       else
         && result == v && after.entries[k] == Item(v, bytes)
         && runs == (if again && k !in before.entries then 2 else 1)
  }

  datatype Run = Run(result: Value, store: Store, runs: nat)

  /**
   * The lookup sequence of `cached_func` on one store: shelve, clear if `again`, shelve again, get.
   * `v` is what the body computes for the call and `bytes` its stored size.
   */
  function PolicyRun(s: Store, k: CallKey, again: bool, v: Value, bytes: nat): (r: Run)
    requires s.Valid()
    ensures Served(s, r.store, k, again, v, bytes, r.result, r.runs)
  {
    var first := if k in s.entries then 0 else 1;
    var s1 := Shelve(s, k, Item(v, bytes));
    var s2 := if again then Forget(s1, k) else s1;
    var second := if k in s2.entries then 0 else 1;
    var s3 := Shelve(s2, k, Item(v, bytes));
    SequenceIsServed(s, k, again, Item(v, bytes), s1, s2, s3);
    Run(s3.entries[k].value, s3, first + second)
  }

  /** The case analysis behind PolicyRun: hit, miss, and forced recompute. */
  lemma SequenceIsServed(s: Store, k: CallKey, again: bool, item: Item, s1: Store, s2: Store, s3: Store)
    requires s.Valid()
    requires s1 == Shelve(s, k, item)
    requires s2 == if again then Forget(s1, k) else s1
    requires s3 == Shelve(s2, k, item)
    ensures Served(s, s3, k, again, item.value, item.bytes, s3.entries[k].value,
                   (if k in s.entries then 0 else 1) + (if k in s2.entries then 0 else 1))
  {
    if again {
      RecomputeIsServed(s, k, item);
    } else if k in s.entries {
      HitIsServed(s, k, item);
    } else {
      MissIsServed(s, k, item);
    }
  }

  /** A present key without `again`: the stored value, no run, the store as it was. */
  lemma HitIsServed(s: Store, k: CallKey, item: Item)
    requires s.Valid() && k in s.entries
    ensures Served(s, s, k, false, item.value, item.bytes, s.entries[k].value, 0)
  {
    assert s.entries.Keys + {k} == s.entries.Keys;
  }

  /** An absent key without `again`: one run, its result stored and returned. */
  lemma MissIsServed(s: Store, k: CallKey, item: Item)
    requires s.Valid() && k !in s.entries
    ensures Served(s, Shelve(s, k, item), k, false, item.value, item.bytes, item.value, 1)
  {
  }

  /** With `again`: the entry is cleared and recomputed, so the result is fresh. */
  lemma RecomputeIsServed(s: Store, k: CallKey, item: Item)
    requires s.Valid()
    ensures var s2 := Forget(Shelve(s, k, item), k);
      Served(s, Shelve(s2, k, item), k, true, item.value, item.bytes, item.value,
             if k in s.entries then 1 else 2)
  {
    var s2 := Forget(Shelve(s, k, item), k);
    assert k !in s2.entries;
    assert Shelve(s2, k, item).entries == s2.entries[k := item];
  }

  /** `caching_memory_allocation` as `initiate_joblib_cache` settles it: given, or free bytes less 1 GB. */
  function Allowance(requested: Option<int>, free: nat): int {
    if requested.None? then free - RESERVE_BYTES else requested.value
  }

  datatype Opened = Opened(disk: Disk, allowance: int)

  /**
   * What `initiate_joblib_cache(path, requested)` does to the disk: it fails,
   * changing nothing, exactly when the parent directory is missing;
   * otherwise the directory exists afterwards, the allowance is the given
   * one or free bytes less 1 GB, and the store there has been shrunk to the
   * allowance keeping only entries it had, while every other store is as it
   * was.
   */
  function Open(d: Disk, pr: Probes, path: string, requested: Option<int>): (r: Result<Opened, CacheError>)
    requires d.Valid()
    ensures r.Err? <==> pr.parentOf(path) !in d.dirs
    ensures r.Err? ==> r.error == ParentMissing(path)
    ensures r.Ok? ==>
      && r.value.disk.Valid()
      && r.value.disk.dirs == d.dirs + {path}
      && (requested.Some? ==> r.value.allowance == requested.value)
      && (requested.None? ==> r.value.allowance == pr.freeBytes(path) - RESERVE_BYTES)
      && (Size(r.value.disk.StoreAt(path)) <= r.value.allowance || r.value.disk.StoreAt(path).entries == map[])
      && Retains(r.value.disk.StoreAt(path), d.StoreAt(path))
      && (forall q :: q != path ==> r.value.disk.StoreAt(q) == d.StoreAt(q))
  {
    if pr.parentOf(path) !in d.dirs then Err(ParentMissing(path))
    else
      var made := d.(dirs := d.dirs + {path});
      var allowance := Allowance(requested, pr.freeBytes(path));
      Ok(Opened(made.Put(path, Evict(made.StoreAt(path), allowance)), allowance))
  }

  /** `initiate_joblib_cache`: the parent check, `mkdir`, a new `Memory`, its allowance and `reduce_size`. */
  method InitiateJoblibCache(path: string, cachingMemoryAllocation: Option<int>, fs: FileSystem)
    returns (r: Result<Memory, CacheError>)
    requires fs.disk.Valid()
    modifies fs
    ensures fs.disk.Valid()
    ensures match old(Open(fs.disk, fs.probes, path, cachingMemoryAllocation))
      case Err(e) => r == Err(e) && fs.disk == old(fs.disk)
      case Ok(o) =>
        && r.Ok? && fresh(r.value)
        && r.value.location == path && r.value.fs == fs
        && r.value.cachingMemoryAllocation == Some(o.allowance)
        && fs.disk == o.disk
  {
    if fs.probes.parentOf(path) !in fs.disk.dirs {
      return Err(ParentMissing(path));
    }
    fs.disk := fs.disk.(dirs := fs.disk.dirs + {path});
    var memory := new Memory(path, fs);
    var freeMemoryBytes := fs.probes.freeBytes(path);
    var allocation := Allowance(cachingMemoryAllocation, freeMemoryBytes);
    memory.cachingMemoryAllocation := Some(allocation);
    memory.ReduceSize(allocation);
    r := Ok(memory);
  }

  /** What one call of a decorated function returns, leaves on disk, and how often its body ran. */
  datatype Outcome = Outcome(result: Result<Value, CacheError>, disk: Disk, runs: nat)

  /** A non-bypassed call was served from the store at `loc`, which `before` shows as it was found. */
  ghost predicate ServedAt(before: Disk, r: Outcome, loc: string, k: CallKey, again: bool, v: Value, bytes: nat) {
    && r.result.Ok?
    && r.disk.dirs == before.dirs
    && (forall q :: q != loc ==> r.disk.StoreAt(q) == before.StoreAt(q))
    && Served(before.StoreAt(loc), r.disk.StoreAt(loc), k, again, v, bytes, r.result.value, r.runs)
  }

  /** Runs the lookup, clear and re-lookup sequence on the store at `loc`. */
  function ServeAt(before: Disk, loc: string, k: CallKey, again: bool, v: Value, bytes: nat): (r: Outcome)
    requires before.Valid()
    ensures r.disk.Valid()
    ensures ServedAt(before, r, loc, k, again, v, bytes)
  {
    var run := PolicyRun(before.StoreAt(loc), k, again, v, bytes);
    Outcome(Ok(run.result), before.Put(loc, run.store), run.runs)
  }

  /**
   * The rest of `cached_func` on values, once the control flags are popped: bypass when
   * `cache_results` is falsy, otherwise serve from the store `cache_path`
   * selects.
   */
  function Decide(d: Disk, pr: Probes, globalLoc: string, fid: string,
                  body: (seq<Value>, Kwargs) -> Value, args: seq<Value>, ignore: seq<string>,
                  forwarded: Kwargs, cacheResults: Value, again: Value, cachePath: Value): (r: Outcome)
    requires d.Valid()
    ensures r.disk.Valid()
  {
    var v := body(args, forwarded);
    var k := KeyFor(fid, args, forwarded, ignore);
    if !Truthy(cacheResults) then Outcome(Ok(v), d, 1)
    else
      match cachePath
      case NoneV => ServeAt(d, globalLoc, k, Truthy(again), v, pr.sizeOf(v))
      case StrV(p) =>
        (match Open(d, pr, p, None)
         case Err(e) => Outcome(Err(e), d, 0)
         case Ok(o) => ServeAt(o.disk, p, k, Truthy(again), v, pr.sizeOf(v)))
      case other => Outcome(Err(NotAPath(other)), d, 0)
  }

  /** The policy of `cached_func` on values; CachedCallFollowsPolicy states what it does. */
  function CachedCall(d: Disk, pr: Probes, globalLoc: string, fid: string,
                      body: (seq<Value>, Kwargs) -> Value, args: seq<Value>, kwargs: Kwargs): (r: Outcome)
    requires d.Valid()
    ensures r.disk.Valid()
  {
    Decide(d, pr, globalLoc, fid, body, args, IgnoreList(kwargs), Strip(kwargs),
           CacheResultsFlag(kwargs), AgainFlag(kwargs), CachePathFlag(kwargs))
  }

  /**
   * The policy of `cached_func` on values. With `cache_results` false the
   * body runs once on the stripped arguments and the disk is untouched.
   * Otherwise the call is served by the store at the global location when
   * `cache_path` is None, and by a store opened at `cache_path` with an
   * automatic allowance when it is a string; the key is always KeyOfCall.
   */
  lemma CachedCallFollowsPolicy(d: Disk, pr: Probes, globalLoc: string, fid: string,
                                body: (seq<Value>, Kwargs) -> Value, args: seq<Value>, kwargs: Kwargs)
    requires d.Valid()
    ensures var r := CachedCall(d, pr, globalLoc, fid, body, args, kwargs);
      && (!Truthy(CacheResultsFlag(kwargs)) ==> r == Outcome(Ok(body(args, Strip(kwargs))), d, 1))
      && (Truthy(CacheResultsFlag(kwargs)) && CachePathFlag(kwargs) == NoneV ==>
            var v := body(args, Strip(kwargs));
            ServedAt(d, r, globalLoc, KeyOfCall(fid, args, kwargs), Truthy(AgainFlag(kwargs)), v, pr.sizeOf(v)))
      && (Truthy(CacheResultsFlag(kwargs)) && CachePathFlag(kwargs).StrV? ==>
            var p := CachePathFlag(kwargs).s;
            var v := body(args, Strip(kwargs));
            match Open(d, pr, p, None)
            case Err(e) => r == Outcome(Err(e), d, 0)
            case Ok(o) => ServedAt(o.disk, r, p, KeyOfCall(fid, args, kwargs), Truthy(AgainFlag(kwargs)), v, pr.sizeOf(v)))
      && (Truthy(CacheResultsFlag(kwargs)) && !CachePathFlag(kwargs).NoneV? && !CachePathFlag(kwargs).StrV? ==>
            r == Outcome(Err(NotAPath(CachePathFlag(kwargs))), d, 0))
  {
  }

  /**
   * Idempotence on the global store: after any call that caches there, a
   * second call with the same forwarded arguments, the same control names
   * passed, and no `again` returns the same value, runs the body zero times
   * and leaves every store as it found it.
   */
  lemma RepeatedCallIsServedFromStore(d: Disk, pr: Probes, globalLoc: string, fid: string,
                                      body: (seq<Value>, Kwargs) -> Value, args: seq<Value>,
                                      kwargs: Kwargs, kwargs': Kwargs)
    requires d.Valid()
    requires Truthy(CacheResultsFlag(kwargs)) && CachePathFlag(kwargs) == NoneV
    requires Truthy(CacheResultsFlag(kwargs')) && CachePathFlag(kwargs') == NoneV && !Truthy(AgainFlag(kwargs'))
    requires Strip(kwargs') == Strip(kwargs)
    requires IgnoreList(kwargs') == IgnoreList(kwargs)
    ensures var first := CachedCall(d, pr, globalLoc, fid, body, args, kwargs);
      var second := CachedCall(first.disk, pr, globalLoc, fid, body, args, kwargs');
      && first.result.Ok?
      && second.result == first.result
      && second.runs == 0
      && second.disk.dirs == first.disk.dirs
      && forall q :: second.disk.StoreAt(q) == first.disk.StoreAt(q)
  {
    var first := CachedCall(d, pr, globalLoc, fid, body, args, kwargs);
    CachedCallFollowsPolicy(d, pr, globalLoc, fid, body, args, kwargs);
    CachedCallFollowsPolicy(first.disk, pr, globalLoc, fid, body, args, kwargs');
  }

  /** The ignore list depends only on which control names the call passed. */
  lemma {:induction false} PresentDependsOnMembership(names: seq<string>, kwargs: Kwargs, kwargs': Kwargs)
    requires forall n :: n in names ==> (n in kwargs <==> n in kwargs')
    ensures Present(names, kwargs) == Present(names, kwargs')
  {
    if names != [] {
      PresentDependsOnMembership(names[1..], kwargs, kwargs');
    }
  }

  /**
   * The other side of RepeatedCallIsServedFromStore: a second call that
   * passes other control names than the first (say `f(1)`, then
   * `f(1, again=False)`) is filed under another key, so the first call's
   * entry does not serve it; when the store held nothing under its key
   * beforehand, the body runs once.
   */
  lemma OtherControlNamesMissTheEntry(d: Disk, pr: Probes, globalLoc: string, fid: string,
                                      body: (seq<Value>, Kwargs) -> Value, args: seq<Value>,
                                      kwargs: Kwargs, kwargs': Kwargs)
    requires d.Valid()
    requires Truthy(CacheResultsFlag(kwargs)) && CachePathFlag(kwargs) == NoneV
    requires Truthy(CacheResultsFlag(kwargs')) && CachePathFlag(kwargs') == NoneV && !Truthy(AgainFlag(kwargs'))
    requires Strip(kwargs') == Strip(kwargs)
    requires IgnoreList(kwargs') != IgnoreList(kwargs)
    requires KeyOfCall(fid, args, kwargs') !in d.StoreAt(globalLoc).entries
    ensures var first := CachedCall(d, pr, globalLoc, fid, body, args, kwargs);
      var second := CachedCall(first.disk, pr, globalLoc, fid, body, args, kwargs');
      && second.result == Ok(body(args, Strip(kwargs)))
      && second.runs == 1
  {
    var first := CachedCall(d, pr, globalLoc, fid, body, args, kwargs);
    CachedCallFollowsPolicy(d, pr, globalLoc, fid, body, args, kwargs);
    CachedCallFollowsPolicy(first.disk, pr, globalLoc, fid, body, args, kwargs');
    if KeyOfCall(fid, args, kwargs') == KeyOfCall(fid, args, kwargs) {
      SameEntryIff(fid, args, args, kwargs, kwargs');
      PresentDependsOnMembership(CONTROL_NAMES, kwargs, kwargs');
      assert false;
    }
  }

  /**
   * With a `cache_path` whose free space is under the 1 GB reserve, the
   * automatic allowance is negative, opening the store empties it, and so
   * every call without `again` runs the body exactly once: nothing is ever
   * served from that store.
   */
  lemma LowSpaceCachePathAlwaysRecomputes(d: Disk, pr: Probes, globalLoc: string, fid: string,
                                          body: (seq<Value>, Kwargs) -> Value, args: seq<Value>, kwargs: Kwargs)
    requires d.Valid()
    requires Truthy(CacheResultsFlag(kwargs)) && !Truthy(AgainFlag(kwargs))
    requires CachePathFlag(kwargs).StrV?
    requires pr.parentOf(CachePathFlag(kwargs).s) in d.dirs
    requires pr.freeBytes(CachePathFlag(kwargs).s) < RESERVE_BYTES
    ensures var r := CachedCall(d, pr, globalLoc, fid, body, args, kwargs);
      r.result == Ok(body(args, Strip(kwargs))) && r.runs == 1
  {
    CachedCallFollowsPolicy(d, pr, globalLoc, fid, body, args, kwargs);
  }

  /** A `Cacher`: the decorator object and the global store it routes calls to. */
  class Cacher {
    var globalCacheMemory: Memory
    var inputCachingMemoryAllocation: Option<int>

    constructor (globalCacheMemory: Memory, cachingMemoryAllocation: Option<int>)
      ensures this.globalCacheMemory == globalCacheMemory
      ensures inputCachingMemoryAllocation == cachingMemoryAllocation
    {
      this.globalCacheMemory := globalCacheMemory;
      inputCachingMemoryAllocation := cachingMemoryAllocation;
    }

    /**
     * `cached_func(*args, **kwargs)` for the decorated function `f`: its
     * result, what it leaves on disk and the runs of `f`'s body are those
     * CachedCall gives.
     */
    method CachedFunc(f: TrackedFunction, args: seq<Value>, kwargs: Kwargs) returns (r: Result<Value, CacheError>)
      requires globalCacheMemory.fs.disk.Valid()
      modifies globalCacheMemory.fs, f
      ensures globalCacheMemory.fs.disk.Valid()
      ensures var out := old(CachedCall(globalCacheMemory.fs.disk, globalCacheMemory.fs.probes,
                                        globalCacheMemory.location, f.id, f.body, args, kwargs));
        && r == out.result
        && globalCacheMemory.fs.disk == out.disk
        && f.invocations == old(f.invocations) + out.runs
    {
      var argumentsToIgnore, cacheResults, again, cachePath, stripped := PreformatKwargs(kwargs);
      r := Route(f, args, argumentsToIgnore, stripped, cacheResults, again, cachePath);
    }

    /**
     * The rest of `cached_func`, after the control flags are popped: the outcome is
     * Decide's on the disk as found.
     */
    method Route(f: TrackedFunction, args: seq<Value>, ignore: seq<string>, forwarded: Kwargs,
                 cacheResults: Value, again: Value, cachePath: Value) returns (r: Result<Value, CacheError>)
      requires globalCacheMemory.fs.disk.Valid()
      modifies globalCacheMemory.fs, f
      ensures globalCacheMemory.fs.disk.Valid()
      ensures var out := old(Decide(globalCacheMemory.fs.disk, globalCacheMemory.fs.probes,
                                    globalCacheMemory.location, f.id, f.body, args, ignore, forwarded,
                                    cacheResults, again, cachePath));
        && r == out.result
        && globalCacheMemory.fs.disk == out.disk
        && f.invocations == old(f.invocations) + out.runs
    {
      if !Truthy(cacheResults) {
        var result := f.Invoke(args, forwarded);
        return Ok(result);
      }
      var fs := globalCacheMemory.fs;
      ghost var v := f.body(args, forwarded);
      ghost var out := Decide(fs.disk, fs.probes, globalCacheMemory.location, f.id, f.body, args, ignore,
                              forwarded, cacheResults, again, cachePath);
      var chosen := ChooseStore(cachePath);
      if chosen.Err? {
        assert out == Outcome(Err(chosen.error), fs.disk, 0);
        return Err(chosen.error);
      }
      var cacheMemory := chosen.value;
      assert out == ServeAt(fs.disk, cacheMemory.location, KeyFor(f.id, args, forwarded, ignore), Truthy(again), v, fs.probes.sizeOf(v));
      r := ServeFrom(cacheMemory, f, ignore, args, forwarded, Truthy(again));
    }

    /**
     * The store selection of `cached_func`: the global store when `cache_path` is None, otherwise a
     * store freshly opened at `cache_path` with no allowance given, so that
     * the allowance is always computed from free space.
     */
    method ChooseStore(cachePath: Value) returns (r: Result<Memory, CacheError>)
      requires globalCacheMemory.fs.disk.Valid()
      modifies globalCacheMemory.fs
      ensures globalCacheMemory.fs.disk.Valid()
      ensures cachePath == NoneV ==>
        r == Ok(globalCacheMemory) && globalCacheMemory.fs.disk == old(globalCacheMemory.fs.disk)
      ensures cachePath.StrV? ==>
        match old(Open(globalCacheMemory.fs.disk, globalCacheMemory.fs.probes, cachePath.s, None))
        case Err(e) => r == Err(e) && globalCacheMemory.fs.disk == old(globalCacheMemory.fs.disk)
        case Ok(o) =>
          && r.Ok? && r.value.location == cachePath.s && r.value.fs == globalCacheMemory.fs
          && globalCacheMemory.fs.disk == o.disk
      ensures !cachePath.NoneV? && !cachePath.StrV? ==>
        r == Err(NotAPath(cachePath)) && globalCacheMemory.fs.disk == old(globalCacheMemory.fs.disk)
    {
      if cachePath == NoneV {
        return Ok(globalCacheMemory);
      }
      if !cachePath.StrV? {
        return Err(NotAPath(cachePath));
      }
      r := InitiateJoblibCache(cachePath.s, None, globalCacheMemory.fs);
    }
  }

  /**
   * The caching half of `cached_func`: wraps `f` for the chosen store, shelves the call, clears
   * the entry when `again`, shelves again and reads the entry back. The
   * outcome is ServeAt's on the store found at `memory.location`.
   */
  method ServeFrom(memory: Memory, f: TrackedFunction, ignore: seq<string>,
                   args: seq<Value>, forwarded: Kwargs, again: bool) returns (r: Result<Value, CacheError>)
    requires memory.fs.disk.Valid()
    modifies memory.fs, f
    ensures memory.fs.disk.Valid()
    ensures var v := f.body(args, forwarded);
      var out := old(ServeAt(memory.fs.disk, memory.location, KeyFor(f.id, args, forwarded, ignore), again, v,
                             memory.fs.probes.sizeOf(v)));
      && r == out.result
      && memory.fs.disk == out.disk
      && f.invocations == old(f.invocations) + out.runs
  {
    ghost var d0 := memory.fs.disk;
    ghost var v := f.body(args, forwarded);
    ghost var k := KeyFor(f.id, args, forwarded, ignore);
    ghost var item := Item(v, memory.fs.probes.sizeOf(v));
    ghost var s0 := d0.StoreAt(memory.location);

    var cached := MemorizedFunc(memory, f, ignore);
    var mem := cached.CallAndShelve(args, forwarded);
    ghost var s1 := Shelve(s0, k, item);
    assert memory.fs.disk == d0.Put(memory.location, s1);
    if again {
      mem.Clear();
    }
    ghost var s2 := if again then Forget(s1, k) else s1;
    d0.PutTwice(memory.location, s1, s2);
    assert memory.fs.disk == d0.Put(memory.location, s2);
    mem := cached.CallAndShelve(args, forwarded);
    ghost var s3 := Shelve(s2, k, item);
    d0.PutTwice(memory.location, s2, s3);
    assert memory.fs.disk == d0.Put(memory.location, s3);
    r := mem.Get();
  }

  /** `Cacher(cache_path, caching_memory_allocation)`: opens the global store, or fails as `initiate_joblib_cache` does. */
  method NewCacher(cachePath: string, cachingMemoryAllocation: Option<int>, fs: FileSystem)
    returns (r: Result<Cacher, CacheError>)
    requires fs.disk.Valid()
    modifies fs
    ensures fs.disk.Valid()
    ensures match old(Open(fs.disk, fs.probes, cachePath, cachingMemoryAllocation))
      case Err(e) => r == Err(e) && fs.disk == old(fs.disk)
      case Ok(o) =>
        && r.Ok? && fresh(r.value) && fresh(r.value.globalCacheMemory)
        && r.value.globalCacheMemory.location == cachePath && r.value.globalCacheMemory.fs == fs
        && r.value.globalCacheMemory.cachingMemoryAllocation == Some(o.allowance)
        && r.value.inputCachingMemoryAllocation == cachingMemoryAllocation
        && fs.disk == o.disk
  {
    var memory := InitiateJoblibCache(cachePath, cachingMemoryAllocation, fs);
    if memory.Err? {
      return Err(memory.error);
    }
    var cacher := new Cacher(memory.value, cachingMemoryAllocation);
    r := Ok(cacher);
  }
}
