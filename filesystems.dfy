/**
 * The machine's file system as the core sees it: the directories that exist
 * with the cache store each holds, and the probes `Path.parent`,
 * `psutil.disk_usage` and the size of a pickled result.
 */
module FileSystems {
  import opened Values
  import opened Stores

  /** The directories that exist, and the cache store held in each cache directory. */
  datatype Disk = Disk(dirs: set<string>, caches: map<string, Store>) {
    ghost predicate Valid() {
      forall p :: p in caches ==> caches[p].Valid()
    }

    /** What a `Memory` at `p` sees: the store there, or none yet. */
    function StoreAt(p: string): (s: Store)
      ensures Valid() ==> s.Valid()
    {
      if p in caches then caches[p] else EMPTY
    }

    function Put(p: string, s: Store): (d: Disk)
      ensures d.dirs == dirs
      ensures d.StoreAt(p) == s
      ensures forall q :: q != p ==> d.StoreAt(q) == StoreAt(q)
    {
      this.(caches := caches[p := s])
    }

    /** A later write to the same directory overrides an earlier one. */
    lemma PutTwice(p: string, s: Store, s': Store)
      ensures Put(p, s).Put(p, s') == Put(p, s')
    {
    }
  }

  /**
   * The file-system probes the core consults: `Path(p).parent`,
   * `psutil.disk_usage(p).free`, and the bytes a pickled result occupies.
   */
  datatype Probes = Probes(parentOf: string -> string, freeBytes: string -> nat, sizeOf: Value -> nat)

  /** The machine's disk, shared by every `Memory` object. */
  class FileSystem {
    var disk: Disk
    const probes: Probes

    constructor (disk: Disk, probes: Probes)
      ensures this.disk == disk && this.probes == probes
    {
      this.disk := disk;
      this.probes := probes;
    }
  }
}
