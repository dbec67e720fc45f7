/** The backend's single-caller parts as they are written: one ranged GET into a borrowed
    buffer, and the memo of object sizes. The remote store answers a range by its header. */
module BackendImpl {
  import opened Basics
  import opened Decimal
  import opened RangeHeader

  /** What the store sends for a Range header. */
  function Served(content: bytes, header: string): Option<bytes> {
    var r := ResolveByteRange(header, |content|);
    ResolvedIsInside(header, |content|);
    if r.None? then None else Some(content[r.value.0..r.value.1 + 1])
  }

  lemma ServedSlice(content: bytes, header: string, first: nat, last: nat)
    requires first <= last < |content| && ResolveByteRange(header, |content|) == Some((first, last))
    ensures Served(content, header) == Some(content[first..last + 1])
  {
  }

  lemma ChunkIsSlice(objects: Store, k: ChunkKey, last: nat)
    requires HasChunk(objects, k) && last == Base(k.chunkIndex) + |Chunk(objects, k)| - 1
    ensures last < |objects[k.objectKey]| && objects[k.objectKey][Base(k.chunkIndex)..last + 1] == Chunk(objects, k)
  {
  }

  /** Asked for 4 MiB from the chunk's start on, the store sends the chunk. */
  lemma ServedIsTheChunk(objects: Store, k: ChunkKey, first: nat)
    requires HasChunk(objects, k) && |objects[k.objectKey]| <= MAX_INT64 - CHUNK_SIZE && first == Base(k.chunkIndex)
    ensures Served(objects[k.objectKey], "bytes=" + Print(first) + "-" + Print(first + 4194303)) ==
            Some(Chunk(objects, k))
  {
    var last := first + |Chunk(objects, k)| - 1;
    ChunkIsSlice(objects, k, last);
    ChunkHeaderSelectsTheChunk(objects, k, first, last, |objects[k.objectKey]|);
    ServedSlice(objects[k.objectKey], "bytes=" + Print(first) + "-" + Print(first + 4194303), first, last);
  }

  /** io.ReadFull: the whole body if it fits; the rest of the buffer stays. */
  method ReadFull(body: bytes, buf: array<byte>) returns (n: nat)
    requires |body| <= buf.Length
    modifies buf
    ensures n == |body| && buf[..] == body + old(buf[n..])
  {
    n := |body|;
    for i := 0 to n
      invariant forall j | 0 <= j < i :: buf[j] == body[j]
      invariant forall j | i <= j < buf.Length :: buf[j] == old(buf[j])
    {
      buf[i] := body[i];
    }
    assert buf[..n] == body && buf[n..] == old(buf[n..]);
  }

  class Backend {
    const remote: Store
    var sizes: map<ObjectKey, int>
    var heads: seq<ObjectKey>        // the HEAD requests that were answered, in order

    /** Each remembered size is right, and was asked for once. */
    ghost predicate Valid()
      reads this
    {
      && (forall key | key in sizes :: key in remote && sizes[key] == |remote[key]|)
      && (forall key | key in heads :: key in sizes)
      && (forall i, j | 0 <= i < j < |heads| :: heads[i] != heads[j])
    }

    constructor (remote: Store)
      ensures Valid() && this.remote == remote && sizes == map[] && heads == []
    {
      this.remote, sizes, heads := remote, map[], [];
    }

    /** The size of an object; answered says whether a HEAD, if one is made, succeeds. */
    method ObjectSize(key: ObjectKey, answered: bool) returns (size: int, ok: bool)
      requires Valid() && (answered ==> key in remote)
      modifies this
      ensures Valid() && ok == (answered || key in old(sizes))
      ensures ok ==> key in remote && size == |remote[key]| && key in sizes
      ensures key in old(sizes) ==> heads == old(heads) && sizes == old(sizes)
      ensures !ok ==> heads == old(heads) && sizes == old(sizes)
    {
      if key in sizes {
        return sizes[key], true;
      }
      if !answered {
        return 0, false;
      }
      size := |remote[key]|;
      sizes := sizes[key := size];
      heads := heads + [key];
      ok := true;
    }

    /** fetchChunk: asks for CHUNK_SIZE bytes from the chunk's start on, and reads what comes
        into the buffer. A shorter body is the last chunk, not an error. */
    method FetchChunk(k: ChunkKey, buf: array<byte>, served: bool) returns (n: nat, ok: bool)
      requires buf.Length == CHUNK_SIZE
      requires served ==> HasChunk(remote, k) && |remote[k.objectKey]| <= MAX_INT64 - CHUNK_SIZE
      modifies buf
      ensures ok == served
      ensures ok ==> n == |Chunk(remote, k)| && buf[..] == Chunk(remote, k) + old(buf[n..])
    {
      if !served {
        return 0, false;
      }
      var rangeStart := k.chunkIndex * CHUNK_SIZE;
      var rangeEnd := rangeStart + CHUNK_SIZE - 1;
      var rangeHdr := "bytes=" + Print(rangeStart) + "-" + Print(rangeEnd);
      ServedIsTheChunk(remote, k, rangeStart);
      var body := Served(remote[k.objectKey], rangeHdr);
      n := ReadFull(body.value, buf);
      ok := true;
    }
  }
}
