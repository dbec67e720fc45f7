/** The disk cache as it is written: a file per chunk, prepared under a temporary name and
    renamed. The file system is a map from path to content; each of its operations may fail. */
module ColdCacheImpl {
  import opened Basics
  import opened Fnv
  import opened ColdPath

  type Files = map<string, bytes>

  /** How far a Put gets. A failed write may leave any content under the temporary name, or
      none; after a failed rename the temporary file may or may not be removed. */
  datatype Outcome =
    | MkdirFails
    | WriteFails(left: Option<bytes>)
    | RenameFails(removed: bool)
    | Succeeds

  /** What Get(k) finds. */
  function Lookup(files: Files, baseDir: string, k: ChunkKey): Option<bytes> {
    var p := ChunkPath(baseDir, k);
    if p in files then Some(files[p]) else None
  }

  predicate SameFile(k: ChunkKey, k': ChunkKey) {
    Hash64(k.objectKey) == Hash64(k'.objectKey) && k.chunkIndex == k'.chunkIndex
  }

  class ColdCache {
    const baseDir: string
    var files: Files

    constructor (baseDir: string)
      ensures this.baseDir == baseDir && files == map[]
      ensures forall k :: Lookup(files, baseDir, k) == None
    {
      this.baseDir := baseDir;
      files := map[];
    }

    /** A Put that succeeds is seen by exactly the chunks that share the file; one that fails,
        at whatever point, is seen by none. */
    method Put(k: ChunkKey, data: bytes, outcome: Outcome) returns (ok: bool)
      modifies this
      ensures ok == outcome.Succeeds?
      ensures forall k' :: Lookup(files, baseDir, k') ==
                           if ok && SameFile(k, k') then Some(data) else old(Lookup(files, baseDir, k'))
      ensures ok ==> (TmpPath(baseDir, k) !in files)
    {
      forall k' ensures TmpPath(baseDir, k) != ChunkPath(baseDir, k') { TmpIsNoChunk(baseDir, k, k'); }
      forall k' ensures ChunkPath(baseDir, k) == ChunkPath(baseDir, k') <==> SameFile(k, k') {
        SameFileIff(baseDir, k, k');
      }
      var p := ChunkPath(baseDir, k);
      if outcome.MkdirFails? {
        return false;
      }
      var tmp := p + ".tmp";
      if outcome.WriteFails? {
        if outcome.left.Some? { files := files[tmp := outcome.left.value]; }
        return false;
      }
      files := files[tmp := data];
      if outcome.RenameFails? {
        if outcome.removed { files := files - {tmp}; }
        return false;
      }
      files := files[p := files[tmp]] - {tmp};
      return true;
    }

    /** Any read error counts as a miss. */
    method Get(k: ChunkKey, fails: bool) returns (data: bytes, ok: bool)
      ensures ok == (!fails && Lookup(files, baseDir, k).Some?)
      ensures ok ==> data == Lookup(files, baseDir, k).value
    {
      var p := ChunkPath(baseDir, k);
      if fails || p !in files {
        return [], false;
      }
      return files[p], true;
    }

    /** Deleting a chunk that is not there is no error. */
    method Delete(k: ChunkKey, fails: bool) returns (ok: bool)
      modifies this
      ensures ok == (!fails || old(Lookup(files, baseDir, k)).None?)
      ensures forall k' :: Lookup(files, baseDir, k') ==
                           if ok && SameFile(k, k') then None else old(Lookup(files, baseDir, k'))
    {
      forall k' ensures ChunkPath(baseDir, k) == ChunkPath(baseDir, k') <==> SameFile(k, k') {
        SameFileIff(baseDir, k, k');
      }
      var p := ChunkPath(baseDir, k);
      if p !in files {
        return true;
      }
      if fails {
        return false;
      }
      files := files - {p};
      return true;
    }
  }

  // ---------------------------------------------------------------- the disk as a map of chunks

  /** No two of these objects have the same hash. */
  ghost predicate HashInjective(keys: set<ObjectKey>) {
    forall a, b | a in keys && b in keys && Hash64(a) == Hash64(b) :: a == b
  }

  /** For the chunks of these objects the files are exactly the map cold. */
  ghost predicate Stores(files: Files, baseDir: string, keys: set<ObjectKey>, cold: map<ChunkKey, bytes>) {
    forall k: ChunkKey | k.objectKey in keys :: Lookup(files, baseDir, k) == if k in cold then Some(cold[k]) else None
  }

  /** What a Put does to the files, as its contract states it. */
  ghost predicate PutDone(files: Files, files': Files, baseDir: string, k: ChunkKey, data: bytes, ok: bool) {
    forall k' :: Lookup(files', baseDir, k') == if ok && SameFile(k, k') then Some(data) else Lookup(files, baseDir, k')
  }

  /** On objects whose hashes differ the disk is a map from chunk to bytes, and Put updates one
      entry: what the rest of the model takes the cold cache to be. */
  lemma PutIsMapUpdate(files: Files, files': Files, baseDir: string, keys: set<ObjectKey>,
                       cold: map<ChunkKey, bytes>, k: ChunkKey, data: bytes, ok: bool)
    requires HashInjective(keys) && k.objectKey in keys && Stores(files, baseDir, keys, cold)
    requires PutDone(files, files', baseDir, k, data, ok)
    ensures Stores(files', baseDir, keys, if ok then cold[k := data] else cold)
  {
    forall k': ChunkKey | k'.objectKey in keys
      ensures SameFile(k, k') <==> k == k' {
    }
  }

  /** Put is atomic to every reader, whenever the program stops: as long as only the temporary
      file of k was touched, every Get finds what it found before. */
  lemma InterruptedPutIsInvisible(files: Files, files': Files, baseDir: string, k: ChunkKey, k': ChunkKey)
    requires files' - {TmpPath(baseDir, k)} == files - {TmpPath(baseDir, k)}
    ensures Lookup(files', baseDir, k') == Lookup(files, baseDir, k')
  {
    TmpIsNoChunk(baseDir, k, k');
    var p, tmp := ChunkPath(baseDir, k'), TmpPath(baseDir, k);
    assert p in files' <==> p in files' - {tmp};
    assert p in files <==> p in files - {tmp};
    if p in files { assert (files - {tmp})[p] == files[p] && (files' - {tmp})[p] == files'[p]; }
  }
}
