/** From chunks to the bytes of a range: which slice of each chunk goes into the body. */
module Assembly {
  import opened Basics

  /** The slice [0] .. [1] of the chunk with the given index that lies in start .. end. */
  function Slice(index: nat, length: nat, start: nat, end: nat): (int, int) {
    var base := Base(index);
    (if start > base then start - base else 0,
     if end - base + 1 < length then end - base + 1 else length)
  }

  /** Where the body stands after the slices of the first n chunks. */
  function Reached(start: nat, end: nat, n: nat): (p: nat) {
    if n == 0 then start else Min(end + 1, Base(ChunkOf(start) + n))
  }

  /** The chunk is one of those the range start .. end of an object needs. */
  predicate Needed(objects: Store, k: ChunkKey, start: nat, end: nat) {
    && k.objectKey in objects && start <= end < |objects[k.objectKey]|
    && ChunkOf(start) <= k.chunkIndex <= ChunkOf(end)
  }

  lemma NeededIsThere(objects: Store, k: ChunkKey, start: nat, end: nat)
    requires Needed(objects, k, start, end)
    ensures HasChunk(objects, k)
    ensures start < Base(k.chunkIndex) + CHUNK_SIZE && Base(k.chunkIndex) <= end
  {
    if ChunkOf(start) < k.chunkIndex { BaseMonotone(ChunkOf(start), k.chunkIndex); }
    if k.chunkIndex < ChunkOf(end) { BaseMonotone(k.chunkIndex, ChunkOf(end)); }
  }

  lemma SliceOfSlice<T>(s: seq<T>, a: nat, b: nat, from: nat, to: nat)
    requires a <= b <= |s| && from <= to <= b - a
    ensures s[a..b][from..to] == s[a + from..a + to]
  {
    var l, r := s[a..b][from..to], s[a + from..a + to];
    assert |l| == |r|;
    forall i | 0 <= i < |l| ensures l[i] == r[i] { assert s[a..b][from + i] == s[a + from + i]; }
  }

  lemma Joined<T>(s: seq<T>, a: nat, b: nat, c: nat)
    requires a <= b <= c <= |s|
    ensures s[a..b] + s[b..c] == s[a..c]
  {
  }

  lemma CarriesOn<T>(s: seq<T>, start: nat, base: nat, length: nat, from: nat, to: nat)
    requires base + length <= |s| && from <= to <= length && start <= base + from
    ensures s[start..base + from] + s[base..base + length][from..to] == s[start..base + to]
  {
    SliceOfSlice(s, base, base + length, from, to);
    Joined(s, start, base + from, base + to);
  }

  /** The arithmetic of one slice, for a chunk that starts at base and has length bytes. */
  lemma SliceBounds(index: nat, length: nat, start: nat, end: nat, size: nat)
    requires start <= end < size && ChunkOf(start) <= index <= ChunkOf(end)
    requires length == Min(CHUNK_SIZE, size - Base(index))
    ensures var (from, to) := Slice(index, length, start, end);
            var n := index - ChunkOf(start);
            && 0 <= from < to <= length
            && Reached(start, end, n) == Base(index) + from
            && Reached(start, end, n + 1) == Base(index) + to <= size
  {
    var n := index - ChunkOf(start);
    if n > 0 { BaseMonotone(ChunkOf(start), index); }
    if index < ChunkOf(end) { BaseMonotone(index, ChunkOf(end)); }
    BaseMonotone(index, index + 1);
  }

  /** Every slice is legal and not empty, so the loop never breaks early, and it carries on
      exactly where the slices before it ended. */
  lemma SliceIsNext(objects: Store, k: ChunkKey, start: nat, end: nat)
    requires Needed(objects, k, start, end)
    ensures HasChunk(objects, k)
    ensures var content := objects[k.objectKey];
            var chunk := Chunk(objects, k);
            var (from, to) := Slice(k.chunkIndex, |chunk|, start, end);
            var n := k.chunkIndex - ChunkOf(start);
            && 0 <= from < to <= |chunk|
            && start <= Reached(start, end, n) < Reached(start, end, n + 1) <= |content|
            && content[start..Reached(start, end, n)] + chunk[from..to] == content[start..Reached(start, end, n + 1)]
  {
    NeededIsThere(objects, k, start, end);
    var content, chunk := objects[k.objectKey], Chunk(objects, k);
    var base := Base(k.chunkIndex);
    SliceBounds(k.chunkIndex, |chunk|, start, end, |content|);
    var (from, to) := Slice(k.chunkIndex, |chunk|, start, end);
    CarriesOn(content, start, base, |chunk|, from, to);
  }

  lemma LastReaches(start: nat, end: nat)
    requires start <= end
    ensures Reached(start, end, ChunkOf(end) - ChunkOf(start) + 1) == end + 1
  {
    BaseMonotone(ChunkOf(end), ChunkOf(end) + 1);
  }

  predicate IsChunkAt(objects: Store, key: ObjectKey, index: nat, c: bytes) {
    && key in objects && Base(index) < |objects[key]| <= MAX_INT64
    && c == Chunk(objects, ChunkKey(key, index))
  }

  /** The chunks are those of the object from first on. */
  ghost predicate AreChunks(objects: Store, key: ObjectKey, first: nat, chunks: seq<bytes>) {
    forall i | 0 <= i < |chunks| :: IsChunkAt(objects, key, first + i, chunks[i])
  }

  lemma PrefixOf<T>(s: seq<T>, a: nat, b: nat, c: nat)
    requires a <= b <= c <= |s|
    ensures s[a..b] == s[a..c][..b - a]
  {
  }

  /** The first n bytes of a slice carry on, too. */
  lemma CutShort(content: bytes, base: nat, length: nat, from: nat, n: nat, start: nat, end: nat)
    requires base + length <= |content| && from + n <= length && start <= base + from
    requires base + from + n <= end + 1 <= |content|
    ensures content[start..base + from] + content[base..base + length][from..from + n] ==
            content[start..end + 1][..base + from + n - start]
  {
    CarriesOn(content, start, base, length, from, from + n);
    PrefixOf(content, start, base + from + n, end + 1);
  }

  /** The body stands before the slice of chunk k. */
  predicate UpToSlice(objects: Store, k: ChunkKey, start: nat, end: nat, body: bytes) {
    && Needed(objects, k, start, end)
    && var p := Reached(start, end, k.chunkIndex - ChunkOf(start));
       start <= p <= |objects[k.objectKey]| && body == objects[k.objectKey][start..p]
  }

  /** What the slice of chunk k adds to the body, if its first n bytes are written. */
  lemma SliceWritten(objects: Store, k: ChunkKey, start: nat, end: nat, body: bytes, n: nat)
    requires UpToSlice(objects, k, start, end, body) && HasChunk(objects, k)
    requires var (from, to) := Slice(k.chunkIndex, |Chunk(objects, k)|, start, end); from + n <= to
    ensures var chunk, range := Chunk(objects, k), objects[k.objectKey][start..end + 1];
            var (from, to) := Slice(k.chunkIndex, |chunk|, start, end);
            && 0 <= from < to <= |chunk| && |body| + n <= |range|
            && body + chunk[from..from + n] == range[..|body| + n]
            && |body| + (to - from) == Reached(start, end, k.chunkIndex - ChunkOf(start) + 1) - start <= |range|
  {
    NeededIsThere(objects, k, start, end);
    var content, chunk, base := objects[k.objectKey], Chunk(objects, k), Base(k.chunkIndex);
    SliceBounds(k.chunkIndex, |chunk|, start, end, |content|);
    var (from, to) := Slice(k.chunkIndex, |chunk|, start, end);
    CutShort(content, base, |chunk|, from, n, start, end);
  }

  /** One round of the slice loop. */
  method WriteSlice(ghost objects: Store, ghost k: ChunkKey, chunk: bytes, index: nat, startByte: nat, endByte: nat,
                    body: bytes, accepts: nat)
    returns (more: bytes, failed: bool, broke: bool)
    requires UpToSlice(objects, k, startByte, endByte, body) && k.chunkIndex == index
    requires HasChunk(objects, k) && chunk == Chunk(objects, k) && |body| <= accepts
    ensures var range := objects[k.objectKey][startByte..endByte + 1];
            var next := Reached(startByte, endByte, index - ChunkOf(startByte) + 1) - startByte;
            && 0 <= next <= |range| && body + more == range[..Min(accepts, next)]
            && (failed <==> accepts < next) && !broke
  {
    SliceWritten(objects, k, startByte, endByte, body, 0);
    var (sliceStart, sliceEnd) := Slice(index, |chunk|, startByte, endByte);
    if sliceStart >= sliceEnd {
      return [], false, true;
    }
    var n := Min(accepts - |body|, sliceEnd - sliceStart);
    SliceWritten(objects, k, startByte, endByte, body, n);
    return chunk[sliceStart..sliceStart + n], n < sliceEnd - sliceStart, false;
  }

  lemma AtSlice(objects: Store, k: ChunkKey, start: nat, end: nat, body: bytes)
    requires Needed(objects, k, start, end) && HasChunk(objects, k)
    requires |body| == Reached(start, end, k.chunkIndex - ChunkOf(start)) - start <= end + 1 - start
    requires body == objects[k.objectKey][start..end + 1][..|body|]
    ensures UpToSlice(objects, k, start, end, body)
  {
    PrefixOf(objects[k.objectKey], start, start + |body|, end + 1);
  }

  /** The slice loop of ServeHTTP: for all sizes and ranges it writes object[start..end+1], all
      slice bounds are legal and the early break is never taken. A writer that fails after it
      took some bytes, in the middle of a slice or not, has taken the first ones. */
  method WriteBody(ghost objects: Store, ghost key: ObjectKey, chunks: seq<bytes>, chunkStart: nat,
                   startByte: nat, endByte: nat, accepts: nat)
    returns (body: bytes, bytesServed: int, failed: bool, broke: bool)
    requires key in objects && startByte <= endByte < |objects[key]| <= MAX_INT64
    requires chunkStart == ChunkOf(startByte)
    requires |chunks| == ChunkOf(endByte) - chunkStart + 1
    requires AreChunks(objects, key, chunkStart, chunks)
    ensures body == objects[key][startByte..endByte + 1][..Min(accepts, endByte - startByte + 1)]
    ensures bytesServed == |body| && !broke && (failed <==> accepts < endByte - startByte + 1)
  {
    body, bytesServed, failed, broke := [], 0, false, false;
    ghost var range := objects[key][startByte..endByte + 1];
    var i := 0;
    while i < |chunks| && !failed && !broke
      invariant i <= |chunks| && 0 <= Reached(startByte, endByte, i) - startByte <= |range| && !broke
      invariant body == range[..Min(accepts, Reached(startByte, endByte, i) - startByte)] && bytesServed == |body|
      invariant failed <==> accepts < Reached(startByte, endByte, i) - startByte
    {
      assert IsChunkAt(objects, key, chunkStart + i, chunks[i]);
      ghost var k := ChunkKey(key, chunkStart + i);
      AtSlice(objects, k, startByte, endByte, body);
      var more;
      more, failed, broke :=
        WriteSlice(objects, k, chunks[i], chunkStart + i, startByte, endByte, body, accepts);
      body, bytesServed, i := body + more, bytesServed + |more|, i + 1;
    }
    LastReaches(startByte, endByte);
  }
}
