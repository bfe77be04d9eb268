# cachecache caching policy, modelled in Dafny

cachecache memoizes Python functions on disk through joblib. A `Cacher` opens
one global joblib `Memory` store when it is built. Each call of a decorated
function runs a fixed policy:

- It takes the control keywords `again`, `cache_results` and `cache_path` out
  of the call's keyword arguments.
- It runs the function directly when `cache_results` is false.
- Otherwise it picks a store: the global one, or one opened at `cache_path`.
- It then runs `call_and_shelve`, clears the entry if `again`, runs
  `call_and_shelve` again, and returns `get()`.

`initiate_joblib_cache` opens a store. It refuses a directory whose parent is
missing, computes the default allowance (free bytes less 1 GB) and shrinks
the store to that allowance.

The project has five modules:

- `values.dfy` (module `Values`) holds Python values and their truthiness,
  keyword dictionaries, the call key, the errors, and the wrapped function.
  The wrapped function is a deterministic body plus an invocation counter.
- `stores.dfy` (module `Stores`) holds the contents of one joblib cache
  directory as an abstract key→value `Store`. `Shelve`, `Forget` and `Evict`
  are what `call_and_shelve`, `clear` and `reduce_size` do to it.
- `filesystems.dfy` (module `FileSystems`) holds the machine's file system:
  `Disk` records the directories that exist and the `Store` in each cache
  directory, `Probes` the path, free-space and size probes, and the
  `FileSystem` object holds the disk that every `Memory` shares.
- `joblib.dfy` (module `Joblib`) models joblib's `Memory` objects and result
  handles. Because `FileSystem.disk` maps each cache directory to its store,
  two `Memory` objects at one path share their entries, as two joblib
  objects on one directory do. `call_and_shelve`, `clear`, `get` and
  `reduce_size` are methods over that state, proved against `Shelve`,
  `Forget` and `Evict`.
- `cachecache.dfy` (module `CacheCache`) models the policy itself:
  - the ignore list and the popping of control keywords (as methods);
  - the lookup, clear and re-lookup sequence (`PolicyRun`), specified by the
    declarative relation `Served`;
  - store opening (`Open`, and `InitiateJoblibCache` over the heap);
  - the whole decision procedure on values (`CachedCall`, whose policy
    `CachedCallFollowsPolicy` states);
  - the `Cacher` class, whose `CachedFunc` is proved to do exactly what
    `CachedCall` says.

Some behaviours are inputs to the model: whether a parent directory exists
(`Probes.parentOf` together with `Disk.dirs`), the free bytes at a path
(`Probes.freeBytes`), and the size of a pickled result (`Probes.sizeOf`).

The code behaves as follows, and the model follows it:

- `cached_func` always pops the control keywords. They never reach the
  function, even one that declares parameters with those names.
- With `cache_results` false, `cached_func` calls the function on the
  remaining keyword arguments, without the control keywords.
- `reduce_size` runs only inside `initiate_joblib_cache`. No call shrinks
  the store after writing its own result. A later call that reopens the
  store at `cache_path` does shrink it.
- `initiate_joblib_cache` has no soft failure. It raises ValueError when the
  parent directory is missing. `Path(path)` raises TypeError when the path is
  not path-like; the model has this as `NotAPath`, raised in `ChooseStore`.
  The errors `mkdir` can raise are left out (see below).
- `cached_func` picks the global store when `cache_path` is None, and a
  store at `cache_path` otherwise. It consults no other argument.
- The class docstring speaks of "all available space minus 5GB". The code
  keeps 1 GB (`1e9`) free, and the model keeps 1 GB.
- The ignore list handed to joblib names the control keywords the call
  passed. joblib drops ignored parameters from its key and fills the others
  in with their defaults. So `f(1)` and `f(1, again=False)` are filed under
  different keys when `f` declares `again`.

Some consequences proved about the code as written:

- When no allowance was given and free space at the store is under 1 GB,
  the automatic allowance is negative and `reduce_size` empties the store.
  This is why the bound reads "size ≤ allowance, or the store is empty".
- A store given by `cache_path` is reopened, and so re-shrunk, on every call.
  With under 1 GB free there, every call recomputes
  (`LowSpaceCachePathAlwaysRecomputes`).
- On the global store, a repeated call is always a hit when it has the same
  forwarded arguments, passes the same control names, and does not set
  `again` (`RepeatedCallIsServedFromStore`). A repeat that passes other
  control names misses the first call's entry
  (`OtherControlNamesMissTheEntry`).

## Model

| member | source | states |
|---|---|---|
| CacheCache.IgnoreList | cachecache/cachecache.py:128-131 | the ignore list holds exactly the control names present as keys of kwargs (both directions), each once, in the fixed order again, cache_results, cache_path |
| CacheCache.Present | cachecache/cachecache.py:128-131 | the comprehension `[k for k in names if k in kwargs]`: membership iff in names and in kwargs, order of names kept, no duplicates when names has none |
| CacheCache.Strip | cachecache/cachecache.py:132-134 | the forwarded kwargs hold no control name, and every other entry with its value unchanged |
| CacheCache.KwargsDict.Pop | cachecache/cachecache.py:132-134 | `dict.pop(name, default)`: returns the value under name or the default, and the dictionary afterwards lacks name and nothing else changed |
| CacheCache.PreformatKwargs | cachecache/cachecache.py:128-134 | the ignore list is computed before the pops; flags default to cache_results=True, again=False, cache_path=None; the remaining dictionary is the stripped kwargs |
| CacheCache.KeyOfCall | cachecache/cachecache.py:128-151 | the key a cached call is filed under holds the function, the positional arguments, the stripped keyword arguments whole (the store's dropping of the ignored names removes nothing, as they were popped), and the set of control names the call passed |
| CacheCache.SameEntryIff | cachecache/cachecache.py:128-134 | two calls of one function share a store entry exactly when their positional and forwarded keyword arguments are equal and they pass the same control names (both directions), whatever the control values |
| CacheCache.PresentDependsOnMembership | cachecache/cachecache.py:128-131 | the ignore list depends only on which control names occur among the call's keywords |
| CacheCache.PolicyRun | cachecache/cachecache.py:154-162 | shelve, clear if again, shelve, get satisfies Served: the store gains exactly the call's key and keeps every other entry; a hit without again returns the stored value with no run and the store unchanged; a miss runs once and stores the result; with again the result is fresh, stored, and the body runs twice on an initial miss |
| Stores.Shelve | cachecache/cachecache.py:154 | call_and_shelve's effect on the store: the key is present afterwards, a present key leaves the store unchanged, an absent key is inserted with the computed item |
| Stores.Forget | cachecache/cachecache.py:157-158 | `mem.clear()` removes exactly the call's entry and keeps the store well formed |
| Joblib.MemorizedFunc.CallAndShelve | cachecache/cachecache.py:154 | runs the function only when the key is absent (invocation count +1 exactly then), writes the Shelve result to the store at the memory's location, returns the handle for the call's key |
| Joblib.MemorizedResult.Clear | cachecache/cachecache.py:158 | the store at the memory's location becomes Forget of the old store for the handle's key |
| Joblib.MemorizedResult.Get | cachecache/cachecache.py:162 | returns the stored value iff the entry is present, KeyError otherwise |
| Values.TrackedFunction.Invoke | cachecache/cachecache.py:139 | calling the function returns its body's value and counts exactly one invocation |
| Stores.DropOldest | cachecache/cachecache.py:201 | one eviction step removes the oldest entry and the resident size drops by exactly that entry's bytes |
| Stores.Evict | cachecache/cachecache.py:201 | reduce_size's result: resident size at most the limit (or the store empty, for a negative limit), only entries the store already had, each unchanged, and never larger than before |
| Joblib.Memory.ReduceSize | cachecache/cachecache.py:201 | shrinks the store at the memory's location in place to Evict of the old store; other stores untouched |
| CacheCache.Open | cachecache/cachecache.py:178-201 | fails with ParentMissing, changing nothing, exactly when the parent directory is missing; otherwise the directory exists, the allowance is the given one or free bytes − 1,000,000,000, the store fits the allowance (or is empty), keeps only old entries, and other stores are untouched |
| CacheCache.InitiateJoblibCache | cachecache/cachecache.py:169-203 | on a missing parent returns the error and leaves the disk unchanged; otherwise returns a fresh Memory at the path whose recorded allowance is the one passed to reduce_size, with the disk as Open gives it |
| CacheCache.NewCacher | cachecache/cachecache.py:91-97 | `Cacher(path, allocation)` fails as initiate_joblib_cache does, or holds a fresh global Memory at path with the computed allowance and records the allocation it was given |
| CacheCache.ServeAt | cachecache/cachecache.py:150-162 | the lookup sequence on the store at one location satisfies Served there and changes no other store and no directory |
| CacheCache.Decide | cachecache/cachecache.py:136-162 | the decision after the flags are popped keeps every store on disk well formed |
| CacheCache.CachedCall | cachecache/cachecache.py:125-164 | the whole decorated call on values keeps every store on disk well formed; CachedCallFollowsPolicy states its policy |
| CacheCache.CachedCallFollowsPolicy | cachecache/cachecache.py:125-164 | bypass when cache_results is falsy: one run on args and stripped kwargs, disk unchanged; cache_path None: served from the global store; a string cache_path: served from a store opened there with an automatic allowance, or the opening error with nothing run; any other cache_path: TypeError; the key is always the function, the positional and stripped keyword arguments, and the set of control names passed |
| CacheCache.Cacher.CachedFunc | cachecache/cachecache.py:125-164 | the decorated call's result, its disk afterwards and the runs of the body are exactly CachedCall's |
| CacheCache.Cacher.Route | cachecache/cachecache.py:136-162 | once the flags are popped, the call's result, disk afterwards and runs of the body are exactly Decide's |
| CacheCache.Cacher.ChooseStore | cachecache/cachecache.py:143-148 | cache_path None selects the global Memory with the disk unchanged; a string opens a store there with no allowance given, failing as Open does; any other value is a TypeError with the disk unchanged |
| CacheCache.SequenceIsServed | cachecache/cachecache.py:154-162 | shelve, clear if again, shelve satisfies Served, with one run for each shelve that found the key absent |
| CacheCache.HitIsServed | cachecache/cachecache.py:154-162 | a present key without again returns the stored value, runs nothing and leaves the store as it was |
| CacheCache.MissIsServed | cachecache/cachecache.py:154-162 | an absent key without again runs once, stores the item and returns its value |
| CacheCache.RecomputeIsServed | cachecache/cachecache.py:154-162 | with again the entry is cleared and stored afresh, the fresh value is returned, and the body runs once on a hit and twice on a miss |
| CacheCache.ServeFrom | cachecache/cachecache.py:150-162 | the heap sequence call_and_shelve, clear, call_and_shelve, get on a chosen Memory produces ServeAt's result, disk and run count |
| CacheCache.RepeatedCallIsServedFromStore | cachecache/cachecache.py:128-162 | after a call cached in the global store, a second call with the same forwarded arguments, the same control names passed and again false returns the same value, runs the body zero times and changes no store |
| CacheCache.OtherControlNamesMissTheEntry | cachecache/cachecache.py:128-162 | a second call on the global store that passes other control names than the first is not served by the first call's entry: with its own key absent beforehand, it runs the body once and returns the fresh value |
| CacheCache.LowSpaceCachePathAlwaysRecomputes | cachecache/cachecache.py:147-148 | with a cache_path under 1 GB free, every call without again runs the body exactly once and returns its fresh value |

## Left out

- joblib internals are not modelled: argument hashing, pickling and the on-disk layout. The call key is kept whole as `CallKey(function, args, stripped kwargs, ignored names)`.
- CacheCache.KeyOfCall: the key holds the set of control names the call passed, not the default values joblib fills in for the control parameters that were not ignored. Whenever joblib accepts the ignore list, every ignored name is a declared parameter, and two calls with one model key share a joblib entry. The converse fails only through the signature binding left out below: `f(1, y=2)` and `f(x=1, y=2)`, or `f(1)` and `f(1, y=<its default>)`, share a joblib entry but not a model key. The ValueError joblib raises for an undeclared ignored name is left out too.
- joblib's signature introspection is left out. It maps positional and keyword arguments to one canonical form and fills in declared defaults. The model does not identify `f(1, y=2)` with `f(x=1, y=2)`, nor `f(1)` with `f(1, y=<its default>)`.
- joblib raises ValueError when an ignored name is not a parameter of the function, for instance `f(1, again=True)` for an `f` without an `again` parameter. The model does not raise it.
- joblib invalidates entries when a function's code changes. The model does not.
- Stores.Evict: eviction works through entries oldest-inserted first. joblib evicts by last access time. The policy relies only on the bound and subset guarantees.
- A result's byte size (`Probes.sizeOf`) is an input. The free bytes at a path (`Probes.freeBytes`) are an input too, and they do not change as entries are written.
- `Path(...).parent` is an input (`Probes.parentOf`); `Path.expanduser` is taken as the identity; `mkdir` adds the path to `Disk.dirs`.
- `mkdir` always succeeds in the model. It can raise FileExistsError when the path is an existing regular file, or PermissionError when the directory cannot be created; these are left out, so `Open` succeeds whenever the parent exists.
- Paths are compared as strings, with no normalisation. So two spellings of one directory are two stores in the model, where `Path` makes them one: `"cache"` and `"cache/"`, or `"~/.cachecache"` and its expanded form.
- `psutil.disk_usage` and `Path.exists` are filesystem probes, replaced by the inputs above.
- The low-space warning (`print` when free space is under 5 GB) is diagnostic output only, and is left out.
- The float arithmetic in `int(free - 1e9)` and the `* 1e-9` conversions is not modelled. The allowance is integer subtraction.
- `Cacher.__repr__` is string formatting with float rounding, and is left out.
- `__call__` and `_decorator` are left out: the `callable` assert and `functools.wraps` are decorator plumbing. The decorated function is the parameter `f` of `CachedFunc`.
- The wrapped function cannot raise. The model's bodies are total, so exception propagation is not shown.
- `Path(cache_path)` accepts path-like objects. The model accepts only strings, and any other non-None value is a TypeError (`NotAPath`).
- The default cache path constant (`cachecache/CONFIG`) is not part of this model. `NewCacher` takes the path as a parameter.
- `cachecache/utils.py` (write-permission and free-space probes) is not part of this model, because `cachecache.py` never imports it.
- Concurrent callers sharing a store are not modelled. Every call runs to completion before the next.
