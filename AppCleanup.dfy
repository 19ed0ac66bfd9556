/** `cleanupOldImages` of app.js: the `Generated` directory as a table from file
    name to modification time (milliseconds), pruned in place of every file
    older than thirty seconds. */
module AppCleanup {

  /** Files strictly older than this many milliseconds are deleted. */
  const MaxAgeMs := 30 * 1000

  /** A file survives a cleanup at `now` when its age is at most `MaxAgeMs`. */
  predicate Fresh(mtime: int, now: int) {
    now - mtime <= MaxAgeMs
  }

  /** The directory after a cleanup at `now`: exactly the fresh entries, each
      with its modification time unchanged. */
  function Pruned(files: map<string, int>, now: int): (kept: map<string, int>)
    ensures forall f :: f in kept <==> f in files && Fresh(files[f], now)
    ensures forall f :: f in kept ==> kept[f] == files[f]
  {
    map f | f in files && Fresh(files[f], now) :: files[f]
  }

  /** A file exactly thirty seconds old is kept, one a millisecond older is
      deleted: the comparison is strict. */
  lemma BoundaryAge(files: map<string, int>, f: string, now: int)
    requires f in files
    ensures now - files[f] == MaxAgeMs ==> f in Pruned(files, now)
    ensures now - files[f] == MaxAgeMs + 1 ==> f !in Pruned(files, now)
  {
  }

  /** Cleanup only deletes: no name is added and no time changes. */
  lemma PrunedIsSubTable(files: map<string, int>, now: int)
    ensures Pruned(files, now).Keys <= files.Keys
    ensures forall f :: f in Pruned(files, now) ==> Pruned(files, now)[f] == files[f]
  {
  }

  /** A second cleanup at the same time deletes nothing. */
  lemma PruneIdempotent(files: map<string, int>, now: int)
    ensures Pruned(Pruned(files, now), now) == Pruned(files, now)
  {
  }

  /** A later cleanup deletes every file an earlier one deletes. */
  lemma PruneMonotone(files: map<string, int>, earlier: int, later: int)
    requires earlier <= later
    ensures Pruned(files, later).Keys <= Pruned(files, earlier).Keys
  {
  }

  /** The directory holding the generated images. */
  class ImageDirectory {
    /** File name to modification time in milliseconds. */
    var files: map<string, int>

    constructor (files: map<string, int>)
      ensures this.files == files
    {
      this.files := files;
    }

    /** `cleanupOldImages()` with `Date.now()` passed in as `now`: walks the
        listing taken before the loop and deletes (`unlinkSync`) each file whose
        age exceeds `MaxAgeMs`. */
    method CleanupOldImages(now: int)
      modifies this
      ensures files == Pruned(old(files), now)
    {
      var listing := files.Keys;
      while listing != {}
        invariant listing <= old(files).Keys
        invariant files.Keys <= old(files).Keys
        invariant forall f :: f in files ==> files[f] == old(files)[f]
        invariant forall f :: f in old(files) ==>
          (f in files <==> f in listing || Fresh(old(files)[f], now))
        decreases listing
      {
        var file :| file in listing;
        if now - files[file] > MaxAgeMs {
          files := files - {file};
        }
        listing := listing - {file};
      }
      assert files == Pruned(old(files), now);
    }
  }
}
