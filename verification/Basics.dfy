/** Vocabulary shared by every component: bytes, chunk keys, and the chunks of an
    immutable object. */
module Basics {
  type byte = x: int | 0 <= x < 256
  type bytes = seq<byte>
  type uint64 = x: int | 0 <= x < 0x1_0000_0000_0000_0000

  const MAX_INT64: int := 0x7FFF_FFFF_FFFF_FFFF
  const CHUNK_SIZE: int := 4194304   // 4 * 1024 * 1024

  /** The first byte of chunk i. */
  function Base(i: nat): (b: nat)
    ensures i == 0 ==> b == 0
  {
    i * 4194304
  }

  /** The chunk that byte p lies in. */
  function ChunkOf(p: nat): (i: nat)
    ensures Base(i) <= p < Base(i) + CHUNK_SIZE
  {
    p / 4194304
  }

  lemma BaseMonotone(i: nat, j: nat)
    requires i < j
    ensures Base(i) + CHUNK_SIZE <= Base(j) && Base(i + 1) == Base(i) + CHUNK_SIZE
  {
  }

  lemma ChunkOfMonotone(p: nat, q: nat)
    requires p <= q
    ensures ChunkOf(p) <= ChunkOf(q) <= q
  {
  }

  datatype Option<+T> = None | Some(value: T)

  type ObjectKey = bytes

  datatype ChunkKey = ChunkKey(objectKey: ObjectKey, chunkIndex: uint64)

  /** The backend: object key to content. Objects never change. */
  type Store = map<ObjectKey, bytes>

  function Min(a: int, b: int): int { if a <= b then a else b }

  function Max(a: int, b: int): int { if a >= b then a else b }

  /** Does the backend hold any byte of this chunk? */
  predicate HasChunk(objects: Store, k: ChunkKey) {
    k.objectKey in objects && Base(k.chunkIndex) < |objects[k.objectKey]|
  }

  /** The bytes of chunk k; the last chunk of an object may be short. */
  function Chunk(objects: Store, k: ChunkKey): (c: bytes)
    requires HasChunk(objects, k)
    ensures 0 < |c| <= CHUNK_SIZE
    ensures |c| == Min(CHUNK_SIZE, |objects[k.objectKey]| - Base(k.chunkIndex))
  {
    var content := objects[k.objectKey];
    var from := Base(k.chunkIndex);
    content[from..Min(from + CHUNK_SIZE, |content|)]
  }

  /** Go's copy(dst, src): overwrites a prefix of dst, returns the number of bytes. */
  function CopyInto(dst: bytes, src: bytes): (r: (bytes, nat))
    ensures |r.0| == |dst| && r.1 == Min(|dst|, |src|)
    ensures r.0[..r.1] == src[..r.1] && r.0[r.1..] == dst[r.1..]
  {
    var n := Min(|dst|, |src|);
    (src[..n] + dst[n..], n)
  }
}
