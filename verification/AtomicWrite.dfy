/** Writing a cache file through a temporary one, and the lock object around it. */
module AtomicWrite {
  import opened Prelude
  import opened Tier2Protocol

  /** A cache file, or a temporary file next to it with a name nobody else uses. */
  datatype Path = CacheFile(key: Key) | TempFile(key: Key, unique: nat)

  /** The primitive file operation that fails, if any does; `Append` may fail after some bytes. */
  datatype Fault = NoFault | NoUniqueName | OpenFails | AppendFails(written: nat) | CloseFails | RenameFails

  class FileSystem {
    var files: map<Path, string>
    var counter: nat
    /** What the directory looked like after every primitive operation so far. */
    ghost var snapshots: seq<map<Path, string>>

    constructor ()
      ensures Valid() && files == map[] && snapshots == []
    {
      files, counter, snapshots := map[], 0, [];
    }

    ghost predicate Valid()
      reads this
    {
      forall path :: path in files && path.TempFile? ==> path.unique < counter
    }

    static function Without(files: map<Path, string>, path: Path, undeletable: set<Path>): map<Path, string> {
      if path in undeletable then files else files - {path}
    }

    method Put(path: Path, data: string)
      modifies this`files, this`snapshots
      ensures files == old(files)[path := data] && snapshots == old(snapshots) + [files]
    {
      files := files[path := data];
      snapshots := snapshots + [files];
    }

    /** Deletes the file, unless the operation fails; its status is ignored. */
    method Delete(path: Path, undeletable: set<Path>)
      modifies this`files, this`snapshots
      ensures files == Without(old(files), path, undeletable) && snapshots == old(snapshots) + [files]
    {
      files := Without(files, path, undeletable);
      snapshots := snapshots + [files];
    }

    /** Replaces the target in one operation. */
    method Rename(from: Path, to: Path)
      requires from in files && from != to
      modifies this`files, this`snapshots
      ensures files == old(files)[to := old(files)[from]] - {from} && snapshots == old(snapshots) + [files]
    {
      files := files[to := files[from]] - {from};
      snapshots := snapshots + [files];
    }

    static ghost predicate SameAt(before: map<Path, string>, seen: map<Path, string>, path: Path) {
      (path in seen <==> path in before) && (path in seen ==> seen[path] == before[path])
    }

    /** Under the cache file's own name an observer sees the old content, the new content or nothing,
        and no other cache file changes. */
    static ghost predicate Observable(before: map<Path, string>, seen: map<Path, string>, key: Key, data: string) {
      && (CacheFile(key) in seen ==>
            || seen[CacheFile(key)] == data
            || (CacheFile(key) in before && seen[CacheFile(key)] == before[CacheFile(key)]))
      && forall k :: k != key ==> SameAt(before, seen, CacheFile(k))
    }

    /** No cache file differs. */
    static ghost predicate CacheSame(before: map<Path, string>, seen: map<Path, string>) {
      forall k :: SameAt(before, seen, CacheFile(k))
    }

    static lemma Unchanged(before: map<Path, string>)
      ensures CacheSame(before, before)
    {
    }

    static lemma TempIsInvisible(before: map<Path, string>, seen: map<Path, string>, temp: Path, content: string)
      requires CacheSame(before, seen) && temp.TempFile?
      ensures CacheSame(before, seen[temp := content]) && CacheSame(before, seen - {temp})
    {
    }

    static lemma SameIsObservable(before: map<Path, string>, seen: map<Path, string>, key: Key, data: string)
      requires CacheSame(before, seen)
      ensures Observable(before, seen, key, data) && Observable(before, seen - {CacheFile(key)}, key, data)
    {
      assert SameAt(before, seen, CacheFile(key));
    }

    static lemma RenamedIsObservable(before: map<Path, string>, seen: map<Path, string>, temp: Path, key: Key,
        data: string)
      requires CacheSame(before, seen) && temp.TempFile? && temp in seen && seen[temp] == data
      ensures Observable(before, seen[CacheFile(key) := data] - {temp}, key, data)
    {
    }

    /** How much of the data has been written when the fault occurs. */
    static function Written(fault: Fault, data: string): string {
      match fault
      case AppendFails(n) => if n < |data| then data[..n] else data
      case _ => data
    }

    /** The directory after a failure past naming the temporary file: that file is there if it was created
        and cannot be deleted, and the cache file is as before if it cannot be deleted, and gone otherwise. */
    static function CleanedUp(
      before: map<Path, string>, temp: Path, key: Key, data: string, fault: Fault, undeletable: set<Path>)
      : map<Path, string>
    {
      var left := if temp in undeletable && fault != OpenFails then before[temp := Written(fault, data)] else before;
      Without(left, CacheFile(key), undeletable)
    }

    /** A failed append has written a part from the front, any other fault all of it or nothing yet. */
    static lemma WrittenIsPrefix(fault: Fault, data: string)
      ensures Written(fault, data) <= data
      ensures |Written(fault, data)|
        == if fault.AppendFails? && fault.written < |data| then fault.written else |data|
    {
    }

    static lemma CleansUp(
      before: map<Path, string>, seen: map<Path, string>, temp: Path, key: Key, data: string, fault: Fault,
        undeletable: set<Path>)
      requires temp.TempFile? && temp !in before
      requires seen == if fault == OpenFails then before else before[temp := Written(fault, data)]
      ensures Without(Without(seen, temp, undeletable), CacheFile(key), undeletable)
        == CleanedUp(before, temp, key, data, fault, undeletable)
      ensures forall path :: path in CleanedUp(before, temp, key, data, fault, undeletable) ==> path in seen
    {
      hide Written;
    }

    static lemma WithoutIsObservable(
      before: map<Path, string>, seen: map<Path, string>, temp: Path, key: Key, data: string, undeletable: set<Path>)
      requires CacheSame(before, seen) && temp.TempFile?
      ensures var first := Without(seen, temp, undeletable);
        Observable(before, first, key, data) &&
          Observable(before, Without(first, CacheFile(key), undeletable), key, data)
    {
      hide CacheSame, Observable;
      TempIsInvisible(before, seen, temp, "");
      SameIsObservable(before, Without(seen, temp, undeletable), key, data);
    }

    /** Writes to a temporary file and renames it; on any failure past naming it, tries to remove both the
        temporary and the cache file. */
    method AtomicWriteToCacheFile(key: Key, data: string, fault: Fault, undeletable: set<Path>) returns (ok: bool)
      requires Valid()
      modifies this
      ensures Valid() && old(|snapshots|) <= |snapshots|
      ensures ok <==> fault == NoFault
      ensures files == if ok then old(files)[CacheFile(key) := data]
                       else if fault == NoUniqueName then old(files)
                       else CleanedUp(old(files), TempFile(key, old(counter)), key, data, fault, undeletable)
      ensures forall i :: old(|snapshots|) <= i < |snapshots| ==> Observable(old(files), snapshots[i], key, data)
    {
      hide Observable, CacheSame, Without, CleanedUp;
      if fault == NoUniqueName {
        return false;
      }
      ghost var before := files;
      assert CacheSame(before, files) by {
        Unchanged(before);
      }
      var temp := TempFile(key, counter);
      assert temp !in files;
      counter := counter + 1;
      var success := false;
      if fault != OpenFails {
        TempIsInvisible(before, files, temp, "");
        Put(temp, "");
        SameIsObservable(before, files, key, data);
        TempIsInvisible(before, files, temp, Written(fault, data));
        Put(temp, Written(fault, data));
        SameIsObservable(before, files, key, data);
        if !fault.AppendFails? && fault != CloseFails && fault != RenameFails {
          RenamedIsObservable(before, files, temp, key, data);
          Rename(temp, CacheFile(key));
          success := true;
          assert files == old(files)[CacheFile(key) := data];
        }
      }
      if !success {
        CleansUp(before, files, temp, key, data, fault, undeletable);
        WithoutIsObservable(before, files, temp, key, data, undeletable);
        Delete(temp, undeletable);
        Delete(CacheFile(key), undeletable);
      }
      return success;
    }
  }

  /** Which lock object currently holds each key's lock file. */
  class LockFiles {
    var holders: map<Key, Tier2CacheEntryLock>

    constructor ()
      ensures holders == map[]
    {
      holders := map[];
    }
  }

  class Tier2CacheEntryLock {
    const key: Key
    /** Whether the lock file is open and locked by this object. */
    var lockFd: bool

    /** The object knows whether it holds its key's lock. */
    ghost predicate Valid(locks: LockFiles)
      reads this, locks
    {
      lockFd <==> key in locks.holders && locks.holders[key] == this
    }

    /** Returns once nobody else holds the key. */
    constructor Acquire(key: Key, locks: LockFiles)
      requires key !in locks.holders
      modifies locks
      ensures this.key == key && lockFd && Valid(locks)
      ensures locks.holders == old(locks.holders)[key := this]
    {
      this.key := key;
      lockFd := true;
      new;
      locks.holders := locks.holders[key := this];
    }

    /** Unlocks once: a second release, as by the destructor, does nothing, even when somebody else
        has locked the key in between. */
    method Release(locks: LockFiles)
      requires Valid(locks)
      modifies this`lockFd, locks
      ensures !lockFd && Valid(locks)
      ensures locks.holders == if old(lockFd) then old(locks.holders) - {key} else old(locks.holders)
    {
      if lockFd {
        locks.holders := locks.holders - {key};
        lockFd := false;
      }
    }
  }
}
