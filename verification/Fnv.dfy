/** The FNV-1a hashes: which shard of the hot cache a chunk lives in, and which directory
    of the cold cache an object's chunks live in. */
module Fnv {
  import opened Basics

  const TWO_32: int := 0x1_0000_0000
  const TWO_64: int := 0x1_0000_0000_0000_0000
  const PRIME_32: int := 16777619
  const PRIME_64: int := 1099511628211
  const OFFSET_32: int := 2166136261
  const OFFSET_64: int := 14695981039346656037
  const NUM_SHARDS: int := 256

  /** Bitwise exclusive or of two naturals. */
  function Xor(a: nat, b: nat): nat
    decreases a + b
  {
    if a == 0 && b == 0 then 0 else 2 * Xor(a / 2, b / 2) + (a + b) % 2
  }

  function Step32(h: nat, b: byte): nat { Xor(h, b) * PRIME_32 % TWO_32 }

  function Step64(h: nat, b: byte): nat { Xor(h, b) * PRIME_64 % TWO_64 }

  /** The hash state after the bytes bs. */
  function Fold32(h: nat, bs: bytes): nat {
    if bs == [] then h else Step32(Fold32(h, bs[..|bs| - 1]), bs[|bs| - 1])
  }

  function Fold64(h: nat, bs: bytes): nat {
    if bs == [] then h else Step64(Fold64(h, bs[..|bs| - 1]), bs[|bs| - 1])
  }

  /** The n low bytes of x, low byte first. */
  function LittleEndian(x: nat, n: nat): (bs: bytes)
    ensures |bs| == n
  {
    if n == 0 then [] else [x % 256] + LittleEndian(x / 256, n - 1)
  }

  function Hash32(k: ChunkKey): nat {
    Fold32(OFFSET_32, k.objectKey + LittleEndian(k.chunkIndex, 8))
  }

  function Hash64(key: ObjectKey): nat { Fold64(OFFSET_64, key) }

  function ShardOf(k: ChunkKey): (s: nat)
    ensures s < NUM_SHARDS
  {
    Hash32(k) % NUM_SHARDS
  }

  // ---------------------------------------------------------------- the loops

  lemma OneMore32(h: nat, bs: bytes, i: nat)
    requires i < |bs|
    ensures Fold32(h, bs[..i + 1]) == Step32(Fold32(h, bs[..i]), bs[i])
  {
    assert bs[..i + 1][..i] == bs[..i];
  }

  lemma OneMore64(h: nat, bs: bytes, i: nat)
    requires i < |bs|
    ensures Fold64(h, bs[..i + 1]) == Step64(Fold64(h, bs[..i]), bs[i])
  {
    assert bs[..i + 1][..i] == bs[..i];
  }

  method Fnv1aHash32(k: ChunkKey) returns (h: nat)
    ensures h == Hash32(k)
  {
    h := OFFSET_32;
    var idx := LittleEndian(k.chunkIndex, 8);
    ghost var all := k.objectKey + idx;
    for i := 0 to |k.objectKey|
      invariant h == Fold32(OFFSET_32, all[..i])
    {
      OneMore32(OFFSET_32, all, i);
      h := Xor(h, k.objectKey[i]);
      h := h * PRIME_32 % TWO_32;
    }
    for i := 0 to |idx|
      invariant h == Fold32(OFFSET_32, all[..|k.objectKey| + i])
    {
      OneMore32(OFFSET_32, all, |k.objectKey| + i);
      h := Xor(h, idx[i]);
      h := h * PRIME_32 % TWO_32;
    }
    assert all[..|all|] == all;
  }

  method Fnv1aHash64(s: ObjectKey) returns (h: nat)
    ensures h == Hash64(s)
  {
    h := OFFSET_64;
    for i := 0 to |s|
      invariant h == Fold64(OFFSET_64, s[..i])
    {
      OneMore64(OFFSET_64, s, i);
      h := Xor(h, s[i]);
      h := h * PRIME_64 % TWO_64;
    }
    assert s[..|s|] == s;
  }

  // ---------------------------------------------------------------- exclusive or

  function Pow2(n: nat): (p: nat)
    ensures p > 0
  {
    if n == 0 then 1 else 2 * Pow2(n - 1)
  }

  lemma {:induction false} XorBelow(a: nat, b: nat, n: nat)
    requires a < Pow2(n) && b < Pow2(n)
    ensures Xor(a, b) < Pow2(n)
  {
    if a != 0 || b != 0 { XorBelow(a / 2, b / 2, n - 1); }
  }

  lemma Halves(x: nat, p: nat)
    requires p > 0
    ensures (x % (2 * p)) / 2 == (x / 2) % p && (x % (2 * p)) % 2 == x % 2
  {
    var q := x / 2 / p;
    var r := x / 2 % p;
    assert x == 2 * (p * q + r) + x % 2;
    assert x == (2 * p) * q + (2 * r + x % 2) by { assert 2 * (p * q) == (2 * p) * q; }
    ModIs(x, 2 * p, q, 2 * r + x % 2);
  }

  lemma MulGap(m: nat, a: int, b: int)
    requires a < b
    ensures m * a + m <= m * b
  {
    assert m * (b - a - 1) >= 0;
    assert m * (b - a - 1) == m * b - m * a - m;
  }

  lemma ModIs(x: int, m: int, q: int, r: int)
    requires x == m * q + r && 0 <= r < m
    ensures x % m == r && x / m == q
  {
    var q' := x / m;
    assert x == m * q' + x % m;
    if q' > q { MulGap(m, q, q'); }
    if q' < q { MulGap(m, q', q); }
  }

  lemma {:induction false} XorMod(a: nat, b: nat, n: nat)
    ensures Xor(a, b) % Pow2(n) == Xor(a % Pow2(n), b % Pow2(n))
    decreases n
  {
    if n > 0 {
      var p := Pow2(n - 1);
      XorMod(a / 2, b / 2, n - 1);
      Halves(a, p);
      Halves(b, p);
      Halves(Xor(a, b), p);
      XorParts(a, b);
      XorParts(a % (2 * p), b % (2 * p));
      assert Xor(a, b) % (2 * p) == 2 * ((Xor(a, b) % (2 * p)) / 2) + (Xor(a, b) % (2 * p)) % 2;
    } else {
      assert Xor(a, b) % 1 == 0 && a % 1 == 0 && b % 1 == 0;
    }
  }

  lemma {:induction false} XorParts(a: nat, b: nat)
    ensures Xor(a, b) / 2 == Xor(a / 2, b / 2) && Xor(a, b) % 2 == (a % 2 + b % 2) % 2
  {
    BitSum(a, b);
    if a != 0 || b != 0 { ModIs(Xor(a, b), 2, Xor(a / 2, b / 2), (a + b) % 2); }
  }

  lemma BitSum(a: nat, b: nat)
    ensures (a + b) % 2 == (a % 2 + b % 2) % 2
  {
  }

  lemma UndoneBits(a: nat, b: nat, x: nat, y: nat)
    requires x % 2 == (a % 2 + b % 2) % 2
    requires y / 2 == a / 2 && y % 2 == (x % 2 + b % 2) % 2
    ensures y == a
  {
  }

  lemma {:induction false} XorUndo(a: nat, b: nat)
    ensures Xor(Xor(a, b), b) == a
    decreases a + b
  {
    if a != 0 || b != 0 {
      XorUndo(a / 2, b / 2);
      XorParts(a, b);
      XorParts(Xor(a, b), b);
      UndoneBits(a, b, Xor(a, b), Xor(Xor(a, b), b));
    }
  }

  // ---------------------------------------------------------------- the hashes, once more

  /** Bit i of x. */
  function Bit(x: nat, i: nat): nat { x / Pow2(i) % 2 }

  lemma HalfBit(x: nat, i: nat)
    ensures Bit(x, i + 1) == Bit(x / 2, i)
  {
    var p := Pow2(i);
    var q, r := x / 2 / p, x / 2 % p;
    assert x == 2 * (p * q + r) + x % 2;
    assert x == (2 * p) * q + (2 * r + x % 2) by { assert 2 * (p * q) == (2 * p) * q; }
    ModIs(x, 2 * p, q, 2 * r + x % 2);
  }

  /** Exclusive or, bit by bit: set in the result iff set in one of the two and not in both. */
  lemma {:induction false} XorBits(a: nat, b: nat, i: nat)
    ensures Bit(Xor(a, b), i) == 1 <==> Bit(a, i) != Bit(b, i)
    decreases i
  {
    XorParts(a, b);
    if i == 0 {
      assert Pow2(0) == 1;
    } else {
      HalfBit(a, i - 1);
      HalfBit(b, i - 1);
      HalfBit(Xor(a, b), i - 1);
      XorBits(a / 2, b / 2, i - 1);
    }
  }

  /** FNV-1a for 32 bits as it is published, first byte first. */
  function Fnv32(h: nat, bs: bytes): nat
    decreases |bs|
  {
    if bs == [] then h else Fnv32(Xor(h, bs[0]) * 16777619 % 0x1_0000_0000, bs[1..])
  }

  lemma FirstByte(h: nat, bs: bytes)
    requires bs != []
    ensures Fold32(h, bs) == Fold32(Step32(h, bs[0]), bs[1..])
  {
    FoldSplit(h, [bs[0]], bs[1..]);
    assert bs == [bs[0]] + bs[1..];
    FoldOne(h, bs[0]);
  }

  lemma {:induction false} FoldIsFnv32(h: nat, bs: bytes)
    ensures Fold32(h, bs) == Fnv32(h, bs)
    decreases |bs|
  {
    if bs != [] {
      FirstByte(h, bs);
      FoldIsFnv32(Step32(h, bs[0]), bs[1..]);
    }
  }

  function Pow256(i: nat): (p: nat)
    ensures p > 0
  {
    if i == 0 then 1 else 256 * Pow256(i - 1)
  }

  lemma DivTwice(x: nat, d: nat, p: nat)
    requires d > 0 && p > 0
    ensures d * p > 0 && x / d / p == x / (d * p)
  {
    var q, r := x / d / p, x / d % p;
    assert x / d == p * q + r;
    assert x == d * (p * q + r) + x % d;
    assert d * (p * q + r) == (d * p) * q + d * r;
    MulGap(d, r, p);
    assert 0 <= d * r;
    ModIs(x, d * p, q, d * r + x % d);
  }

  lemma {:induction false} LittleEndianAt(x: nat, n: nat, i: nat)
    requires i < n
    ensures LittleEndian(x, n)[i] == x / Pow256(i) % 256
  {
    if i > 0 {
      LittleEndianAt(x / 256, n - 1, i - 1);
      DivTwice(x, 256, Pow256(i - 1));
    }
  }

  /** The 32-bit hash of a chunk: FNV-1a, offset basis and prime for 32 bits, of the object key
      and then the eight bytes of the index, the i-th of them of weight 256^i. */
  lemma Hash32Is(k: ChunkKey, index: bytes)
    requires |index| == 8 && forall i | 0 <= i < 8 :: index[i] == k.chunkIndex / Pow256(i) % 256
    ensures Hash32(k) == Fnv32(2166136261, k.objectKey + index)
    ensures ShardOf(k) == Hash32(k) % 256
  {
    var bs := LittleEndian(k.chunkIndex, 8);
    forall i | 0 <= i < 8 ensures index[i] == bs[i] { LittleEndianAt(k.chunkIndex, 8, i); }
    assert index == bs;
    FoldIsFnv32(OFFSET_32, k.objectKey + index);
  }

  // ---------------------------------------------------------------- shards

  const INVERSE_LOW: int := 155   // of PRIME_32 modulo 256

  /** One step as the shard index sees it: a permutation of the 256 indices. */
  function StepLow(l: byte, b: byte): byte { Xor8(l, b) * PRIME_32 % NUM_SHARDS }

  function StepLowBack(l: byte, b: byte): byte { Xor8(l * INVERSE_LOW % NUM_SHARDS, b) }

  function Xor8(a: byte, b: byte): byte {
    assert Pow2(8) == 256;
    XorBelow(a, b, 8);
    Xor(a, b)
  }

  lemma LowProduct(x: nat)
    ensures (x * PRIME_32 % TWO_32) % NUM_SHARDS == (x % NUM_SHARDS) * PRIME_32 % NUM_SHARDS
  {
    var q, r := x / 256, x % 256;
    var y := x * PRIME_32;
    var k := y / TWO_32;
    ModIs(r * PRIME_32, 256, r * PRIME_32 / 256, r * PRIME_32 % 256);
    ModIs(y % TWO_32, 256, q * PRIME_32 + r * PRIME_32 / 256 - k * 16777216, r * PRIME_32 % 256);
  }

  lemma XorLow(h: nat, b: byte)
    ensures Xor(h, b) % NUM_SHARDS == Xor8(h % NUM_SHARDS, b)
  {
    var p := Pow2(8);
    assert p == 256 && b % p == b;
    XorMod(h, b, 8);
  }

  lemma StepIsLow(h: nat, b: byte)
    ensures Step32(h, b) % NUM_SHARDS == StepLow(h % NUM_SHARDS, b)
  {
    XorLow(h, b);
    LowProduct(Xor(h, b));
  }

  lemma InverseLow(x: byte)
    ensures (x * PRIME_32 % NUM_SHARDS) * INVERSE_LOW % NUM_SHARDS == x
    ensures (x * INVERSE_LOW % NUM_SHARDS) * PRIME_32 % NUM_SHARDS == x
  {
    var c := 10158324;
    assert PRIME_32 * INVERSE_LOW == 1 + 256 * c;
    var k := x * PRIME_32 / 256;
    var k' := x * INVERSE_LOW / 256;
    ModIs((x * PRIME_32 % 256) * INVERSE_LOW, 256, c * x - INVERSE_LOW * k, x);
    ModIs((x * INVERSE_LOW % 256) * PRIME_32, 256, c * x - PRIME_32 * k', x);
  }

  lemma StepLowInverts(l: byte, b: byte)
    ensures StepLowBack(StepLow(l, b), b) == l
    ensures StepLow(StepLowBack(l, b), b) == l
  {
    InverseLow(Xor8(l, b));
    XorUndo(l, b);
    var m := l * INVERSE_LOW % NUM_SHARDS;
    XorUndo(m, b);
    InverseLow(l);
  }

  function FoldLow(l: byte, bs: bytes): byte {
    if bs == [] then l else StepLow(FoldLow(l, bs[..|bs| - 1]), bs[|bs| - 1])
  }

  function FoldLowBack(l: byte, bs: bytes): byte
    decreases |bs|
  {
    if bs == [] then l else FoldLowBack(StepLowBack(l, bs[|bs| - 1]), bs[..|bs| - 1])
  }

  lemma FoldIsLow(h: nat, bs: bytes)
    ensures Fold32(h, bs) % NUM_SHARDS == FoldLow(h % NUM_SHARDS, bs)
  {
    if bs != [] {
      FoldIsLow(h, bs[..|bs| - 1]);
      StepIsLow(Fold32(h, bs[..|bs| - 1]), bs[|bs| - 1]);
    }
  }

  lemma {:induction false} FoldLowInverts(l: byte, bs: bytes)
    ensures FoldLowBack(FoldLow(l, bs), bs) == l
    ensures FoldLow(FoldLowBack(l, bs), bs) == l
    decreases |bs|
  {
    if bs != [] {
      var t, b := bs[..|bs| - 1], bs[|bs| - 1];
      FoldLowInverts(l, t);
      StepLowInverts(FoldLow(l, t), b);
      StepLowInverts(l, b);
      FoldLowInverts(StepLowBack(l, b), t);
    }
  }

  lemma {:induction false} FoldSplit(h: nat, a: bytes, b: bytes)
    ensures Fold32(h, a + b) == Fold32(Fold32(h, a), b)
    decreases |b|
  {
    if b == [] {
      assert a + b == a;
    } else {
      var t := b[..|b| - 1];
      assert (a + b)[..|a + b| - 1] == a + t;
      FoldSplit(h, a, t);
    }
  }

  lemma LittleEndianLow(block: nat, low: byte)
    ensures LittleEndian(256 * block + low, 8) == [low] + LittleEndian(block, 7)
  {
    var index := 256 * block + low;
    ModIs(index, 256, block, low);
    assert LittleEndian(index, 7 + 1) == [index % 256] + LittleEndian(index / 256, 7);
  }

  lemma FoldOne(h: nat, b: byte)
    ensures Fold32(h, [b]) == Step32(h, b)
  {
    assert [b][..0] == [];
  }

  lemma HashInBlock(key: ObjectKey, block: nat, low: byte)
    requires 256 * block + low < TWO_64
    ensures Hash32(ChunkKey(key, 256 * block + low)) ==
            Fold32(Step32(Fold32(OFFSET_32, key), low), LittleEndian(block, 7))
  {
    LittleEndianLow(block, low);
    FoldThrough(OFFSET_32, key, LittleEndian(256 * block + low, 8), low, LittleEndian(block, 7));
  }

  lemma FoldThrough(h: nat, before: bytes, rest: bytes, low: byte, later: bytes)
    requires rest == [low] + later
    ensures Fold32(h, before + rest) == Fold32(Step32(Fold32(h, before), low), later)
  {
    FoldSplit(h, before, [low] + later);
    FoldSplit(Fold32(h, before), [low], later);
    FoldOne(Fold32(h, before), low);
  }

  /** The shard of chunk 256 * block + low: the hash state of the object's key, one step on
      the low byte, then the seven bytes of the block number. */
  lemma ShardInBlock(key: ObjectKey, block: nat, low: byte)
    requires 256 * block + low < TWO_64
    ensures ShardOf(ChunkKey(key, 256 * block + low)) ==
            FoldLow(StepLow(Fold32(OFFSET_32, key) % NUM_SHARDS, low), LittleEndian(block, 7))
  {
    var h := Fold32(OFFSET_32, key);
    HashInBlock(key, block, low);
    StepIsLow(h, low);
    FoldIsLow(Step32(h, low), LittleEndian(block, 7));
  }

  /** The chunk of an aligned block that lives on a given shard, found by undoing the hash. */
  function LowByteOn(key: ObjectKey, block: nat, shard: byte): byte {
    var target := FoldLowBack(shard, LittleEndian(block, 7));
    Xor8(target * INVERSE_LOW % NUM_SHARDS, Fold32(OFFSET_32, key) % NUM_SHARDS)
  }

  lemma XorSwap(a: nat, b: nat)
    ensures Xor(a, b) == Xor(b, a)
    decreases a + b
  {
    if a != 0 || b != 0 { XorSwap(a / 2, b / 2); }
  }

  /** A step is undone in its byte as well as in its state. */
  lemma StepLowByte(l: byte, low: byte, target: byte)
    ensures StepLow(l, low) == target <==> low == Xor8(target * INVERSE_LOW % NUM_SHARDS, l)
  {
    var m := target * INVERSE_LOW % NUM_SHARDS;
    InverseLow(target);
    InverseLow(Xor8(l, low));
    XorSwap(l, low);
    XorUndo(low, l);
    XorUndo(m, l);
  }

  /** Every aligned block of 256 chunks of an object puts exactly one chunk on each shard. */
  lemma BlockPermutesShards(key: ObjectKey, block: nat, low: byte, shard: byte)
    requires 256 * block + 255 < TWO_64
    ensures ShardOf(ChunkKey(key, 256 * block + low)) == shard <==> low == LowByteOn(key, block, shard)
  {
    var bs := LittleEndian(block, 7);
    var l := Fold32(OFFSET_32, key) % NUM_SHARDS;
    ShardInBlock(key, block, low);
    FoldLowInverts(StepLow(l, low), bs);
    FoldLowInverts(shard, bs);
    StepLowByte(l, low, FoldLowBack(shard, bs));
  }

  /** How many of the chunks first, ..., first + n - 1 live on the shard. */
  function OnShard(key: ObjectKey, first: nat, n: nat, shard: byte): (c: nat)
    requires first + n <= TWO_64
    ensures c <= n
  {
    if n == 0 then 0
    else OnShard(key, first, n - 1, shard)
         + if ShardOf(ChunkKey(key, first + n - 1)) == shard then 1 else 0
  }

  lemma {:induction false} OnShardSplit(key: ObjectKey, first: nat, n: nat, m: nat, shard: byte)
    requires first + n + m <= TWO_64
    ensures OnShard(key, first, n + m, shard) == OnShard(key, first, n, shard) + OnShard(key, first + n, m, shard)
    decreases m
  {
    if m > 0 { OnShardSplit(key, first, n, m - 1, shard); }
  }

  /** Part of an aligned block has one chunk on the shard or none. */
  lemma {:induction false} OnShardInBlock(key: ObjectKey, block: nat, from: nat, n: nat, shard: byte)
    requires from + n <= 256 && 256 * block + 255 < TWO_64
    ensures OnShard(key, 256 * block + from, n, shard) ==
            if from <= LowByteOn(key, block, shard) < from + n then 1 else 0
    decreases n
  {
    if n > 0 {
      OnShardInBlock(key, block, from, n - 1, shard);
      BlockPermutesShards(key, block, from + n - 1, shard);
    }
  }

  function CeilDiv(n: nat, d: nat): nat
    requires d > 0
  {
    (n + d - 1) / d
  }

  lemma NextBlock(first: nat)
    ensures (first + (256 - first % 256)) % 256 == 0
  {
  }

  lemma CeilOneMore(n: nat)
    ensures CeilDiv(n + 256, 256) == CeilDiv(n, 256) + 1
    ensures n > 0 ==> CeilDiv(n, 256) >= 1
  {
  }

  /** The aligned blocks that n chunks from first on reach into bound their number on a shard. */
  lemma {:induction false} OnShardByBlocks(key: ObjectKey, first: nat, n: nat, shard: byte)
    requires first + n <= TWO_64
    ensures OnShard(key, first, n, shard) <= CeilDiv(first % 256 + n, 256)
    decreases n
  {
    var block, from := first / 256, first % 256;
    if n == 0 {
    } else if from + n <= 256 {
      OnShardInBlock(key, block, from, n, shard);
      CeilOneMore(from + n);
    } else {
      var m := 256 - from;
      OnShardInBlock(key, block, from, m, shard);
      OnShardSplit(key, first, m, n - m, shard);
      OnShardByBlocks(key, first + m, n - m, shard);
      NextBlock(first);
      CeilOneMore(n - m);
      assert from + n == n - m + 256;
    }
  }

  /** Any n consecutive chunks of an object put at most ceil(n / 256) + 1 on one shard, and a
      whole aligned block puts exactly one there. */
  lemma ConsecutiveChunksSpread(key: ObjectKey, first: nat, n: nat, shard: byte)
    requires first + n <= TWO_64
    ensures OnShard(key, first, n, shard) <= (n + 255) / 256 + 1
    ensures first % 256 == 0 && n == 256 ==> OnShard(key, first, n, shard) == 1
  {
    OnShardByBlocks(key, first, n, shard);
    if first % 256 == 0 && n == 256 { OnShardInBlock(key, first / 256, 0, 256, shard); }
  }
}
