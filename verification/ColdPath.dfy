/** Where the cold cache keeps a chunk, and when two chunks share a file. */
module ColdPath {
  import opened Basics
  import opened Decimal
  import opened Fnv

  // ---------------------------------------------------------------- the hash can be undone, step by step

  const INVERSE_64: int := 14886173955864302971   // of PRIME_64 modulo 2^64

  lemma InverseProduct(x: nat)
    requires x < TWO_64
    ensures (x * PRIME_64 % TWO_64) * INVERSE_64 % TWO_64 == x
  {
    var c := 887285111055;
    assert PRIME_64 * INVERSE_64 == 1 + TWO_64 * c;
    var q := x * PRIME_64 / TWO_64;
    var r := x * PRIME_64 % TWO_64;
    ModIs(r * INVERSE_64, TWO_64, c * x - q * INVERSE_64, x);
  }

  lemma XorFits(h: nat, b: byte)
    requires h < TWO_64
    ensures Xor(h, b) < TWO_64
  {
    PowersOf64();
    XorBelow(h, b, 64);
  }

  lemma PowersOf64()
    ensures Pow2(64) == TWO_64
  {
    PowEight(0);
    PowEight(8);
    PowEight(16);
    PowEight(24);
    PowEight(32);
    PowEight(40);
    PowEight(48);
    PowEight(56);
  }

  lemma PowEight(m: nat)
    ensures Pow2(m + 8) == 256 * Pow2(m)
  {
    assert Pow2(m + 2) == 4 * Pow2(m);
    assert Pow2(m + 4) == 4 * Pow2(m + 2);
    assert Pow2(m + 6) == 4 * Pow2(m + 4);
    assert Pow2(m + 8) == 4 * Pow2(m + 6);
  }

  function StepBack(h: nat, b: byte): nat {
    Xor(h * INVERSE_64 % TWO_64, b)
  }

  /** Each step of the 64-bit hash is a bijection on states. */
  lemma StepInverts(h: nat, b: byte)
    requires h < TWO_64
    ensures StepBack(Step64(h, b), b) == h
  {
    XorFits(h, b);
    InverseProduct(Xor(h, b));
    XorUndo(h, b);
  }

  /** ... and tells bytes apart. */
  lemma StepSeesByte(h: nat, a: byte, b: byte)
    requires h < TWO_64 && Step64(h, a) == Step64(h, b)
    ensures a == b
  {
    XorFits(h, a);
    XorFits(h, b);
    InverseProduct(Xor(h, a));
    InverseProduct(Xor(h, b));
    XorSwap(h, a);
    XorSwap(h, b);
    XorUndo(a, h);
    XorUndo(b, h);
  }

  lemma FoldFits(h: nat, bs: bytes)
    requires h < TWO_64
    ensures Fold64(h, bs) < TWO_64
  {
  }

  lemma {:induction false} FoldSplit64(h: nat, a: bytes, b: bytes)
    ensures Fold64(h, a + b) == Fold64(Fold64(h, a), b)
    decreases |b|
  {
    if b == [] {
      assert a + b == a;
    } else {
      var t := b[..|b| - 1];
      assert (a + b)[..|a + b| - 1] == a + t;
      FoldSplit64(h, a, t);
    }
  }

  lemma {:induction false} FoldInjective(g: nat, h: nat, bs: bytes)
    requires g < TWO_64 && h < TWO_64 && Fold64(g, bs) == Fold64(h, bs)
    ensures g == h
    decreases |bs|
  {
    if bs != [] {
      var t, b := bs[..|bs| - 1], bs[|bs| - 1];
      FoldFits(g, t);
      FoldFits(h, t);
      StepInverts(Fold64(g, t), b);
      StepInverts(Fold64(h, t), b);
      FoldInjective(g, h, t);
    }
  }

  /** Object keys that differ in exactly one byte position never share a hash. */
  lemma OneByteApart(before: bytes, a: byte, b: byte, after: bytes)
    ensures Hash64(before + [a] + after) == Hash64(before + [b] + after) <==> a == b
  {
    if Hash64(before + [a] + after) == Hash64(before + [b] + after) {
      var h := Fold64(OFFSET_64, before);
      FoldFits(OFFSET_64, before);
      AfterByte(before, a, after);
      AfterByte(before, b, after);
      FoldInjective(Step64(h, a), Step64(h, b), after);
      StepSeesByte(h, a, b);
    }
  }

  lemma AfterByte(before: bytes, a: byte, after: bytes)
    ensures Hash64(before + [a] + after) == Fold64(Step64(Fold64(OFFSET_64, before), a), after)
  {
    FoldSplit64(OFFSET_64, before + [a], after);
    FoldSplit64(OFFSET_64, before, [a]);
    assert [a][..0] == [];
  }

  /** FNV-1a for 64 bits as it is published, first byte first. */
  function Fnv64(h: nat, bs: bytes): nat
    decreases |bs|
  {
    if bs == [] then h else Fnv64(Xor(h, bs[0]) * 1099511628211 % 0x1_0000_0000_0000_0000, bs[1..])
  }

  lemma FirstByte64(h: nat, bs: bytes)
    requires bs != []
    ensures Fold64(h, bs) == Fold64(Step64(h, bs[0]), bs[1..])
  {
    FoldSplit64(h, [bs[0]], bs[1..]);
    assert bs == [bs[0]] + bs[1..];
    assert [bs[0]][..0] == [];
  }

  lemma {:induction false} FoldIsFnv64(h: nat, bs: bytes)
    ensures Fold64(h, bs) == Fnv64(h, bs)
    decreases |bs|
  {
    if bs != [] {
      FirstByte64(h, bs);
      FoldIsFnv64(Step64(h, bs[0]), bs[1..]);
    }
  }

  /** The hash of an object key is FNV-1a from the 64-bit offset basis on. */
  lemma Hash64Is(key: ObjectKey)
    ensures Hash64(key) == Fnv64(14695981039346656037, key)
  {
    FoldIsFnv64(OFFSET_64, key);
  }

  // ---------------------------------------------------------------- the path

  const HEX: string := "0123456789abcdef"

  /** The n bytes of h, most significant first. */
  function BigEndian(h: nat, n: nat): (raw: bytes)
    ensures |raw| == n
  {
    if n == 0 then [] else BigEndian(h / 256, n - 1) + [h % 256]
  }

  /** encoding/hex. */
  function HexEncode(raw: bytes): (s: string)
    ensures |s| == 2 * |raw|
  {
    if raw == [] then []
    else HexEncode(raw[..|raw| - 1]) + [HEX[raw[|raw| - 1] / 16], HEX[raw[|raw| - 1] % 16]]
  }

  function HashHex(key: ObjectKey): (s: string)
    ensures |s| == 16
  {
    HexEncode(BigEndian(Hash64(key), 8))
  }

  function ChunkPath(baseDir: string, k: ChunkKey): string {
    baseDir + "/" + HashHex(k.objectKey)[..2] + "/" + HashHex(k.objectKey) + "/" + Print(k.chunkIndex)
  }

  function TmpPath(baseDir: string, k: ChunkKey): string {
    ChunkPath(baseDir, k) + ".tmp"
  }

  /** 0 to 9, then a to f. */
  predicate IsHexDigit(c: char, d: nat)
    requires d < 16
  {
    c as int == if d < 10 then 48 + d else 87 + d
  }

  lemma HexOf(d: nat)
    requires d < 16
    ensures IsHexDigit(HEX[d], d)
  {
  }

  lemma {:induction false} HexAt(raw: bytes, i: nat)
    requires i < |raw|
    ensures IsHexDigit(HexEncode(raw)[2 * i], raw[i] / 16) && IsHexDigit(HexEncode(raw)[2 * i + 1], raw[i] % 16)
    decreases |raw|
  {
    var n := |raw| - 1;
    if i < n {
      HexAt(raw[..n], i);
    } else {
      HexOf(raw[n] / 16);
      HexOf(raw[n] % 16);
    }
  }

  lemma SameByte(a: byte, b: byte, c: char, d: char)
    requires IsHexDigit(c, a / 16) && IsHexDigit(d, a % 16) && IsHexDigit(c, b / 16) && IsHexDigit(d, b % 16)
    ensures a == b
  {
  }

  lemma HexInjective(a: bytes, b: bytes)
    requires |a| == |b| && HexEncode(a) == HexEncode(b)
    ensures a == b
  {
    var s := HexEncode(a);
    forall i | 0 <= i < |a| ensures a[i] == b[i] {
      HexAt(a, i);
      HexAt(b, i);
      SameByte(a[i], b[i], s[2 * i], s[2 * i + 1]);
    }
  }

  lemma {:induction false} BigEndianInjective(g: nat, h: nat, n: nat)
    requires g < Pow2(8 * n) && h < Pow2(8 * n) && BigEndian(g, n) == BigEndian(h, n)
    ensures g == h
    decreases n
  {
    if n > 0 {
      var s, t := BigEndian(g, n), BigEndian(h, n);
      assert s[..n - 1] == BigEndian(g / 256, n - 1) && t[..n - 1] == BigEndian(h / 256, n - 1);
      PowEight(8 * (n - 1));
      assert s[n - 1] == t[n - 1];
      BigEndianInjective(g / 256, h / 256, n - 1);
    }
  }

  lemma HashHexInjective(a: ObjectKey, b: ObjectKey)
    ensures HashHex(a) == HashHex(b) <==> Hash64(a) == Hash64(b)
  {
    if HashHex(a) == HashHex(b) {
      HexInjective(BigEndian(Hash64(a), 8), BigEndian(Hash64(b), 8));
      FoldFits(OFFSET_64, a);
      FoldFits(OFFSET_64, b);
      PowersOf64();
      BigEndianInjective(Hash64(a), Hash64(b), 8);
    }
  }

  lemma CutEqual<T>(p: seq<T>, a: seq<T>, s: seq<T>, b: seq<T>, t: seq<T>)
    requires |a| == |b| && p + a + s == p + b + t
    ensures a == b && s == t
  {
    var l, r := p + a + s, p + b + t;
    assert l[|p|..|p| + |a|] == a && r[|p|..|p| + |b|] == b;
    assert l[|p| + |a|..] == s && r[|p| + |b|..] == t;
  }

  lemma PathParts(baseDir: string, k: ChunkKey)
    ensures var h := HashHex(k.objectKey);
            ChunkPath(baseDir, k) == (baseDir + "/") + (h[..2] + "/" + h + "/") + Print(k.chunkIndex)
  {
  }

  lemma HashInPath(h: string, h': string)
    requires |h| == |h'| == 16 && h[..2] + "/" + h + "/" == h'[..2] + "/" + h' + "/"
    ensures h == h'
  {
    var a, a' := h[..2] + "/" + h + "/", h'[..2] + "/" + h' + "/";
    assert a[3..19] == h && a'[3..19] == h';
  }

  // ---------------------------------------------------------------- the path, character by character

  lemma {:induction false} BigEndianAt(h: nat, n: nat, i: nat)
    requires i < n
    ensures BigEndian(h, n)[i] == h / Pow256(n - 1 - i) % 256
    decreases n
  {
    if i < n - 1 {
      BigEndianAt(h / 256, n - 1, i);
      DivTwice(h, 256, Pow256(n - 2 - i));
    } else {
      assert Pow256(0) == 1;
    }
  }

  function Pow16(i: nat): (p: nat)
    ensures p > 0
  {
    if i == 0 then 1 else 16 * Pow16(i - 1)
  }

  lemma {:induction false} SixteenTwice(i: nat)
    ensures Pow16(2 * i) == Pow256(i)
  {
    if i > 0 {
      SixteenTwice(i - 1);
      assert Pow16(2 * i) == 16 * Pow16(2 * i - 1) == 256 * Pow16(2 * (i - 1));
    }
  }

  lemma Nibbles(x: nat)
    ensures x % 256 / 16 == x / 16 % 16 && x % 256 % 16 == x % 16
  {
  }

  lemma ByteNibbles(h: nat, m: nat)
    ensures h / Pow256(m) % 256 / 16 == h / Pow16(2 * m + 1) % 16
    ensures h / Pow256(m) % 256 % 16 == h / Pow16(2 * m) % 16
  {
    SixteenTwice(m);
    OddPower(m);
    TwoNibbles(h, Pow256(m));
  }

  lemma OddPower(m: nat)
    ensures Pow16(2 * m + 1) == Pow16(2 * m) * 16
  {
  }

  lemma TwoNibbles(h: nat, p: nat)
    requires p > 0
    ensures h / p % 256 / 16 == h / (p * 16) % 16 && h / p % 256 % 16 == h / p % 16
  {
    Nibbles(h / p);
    DivTwice(h, p, 16);
  }

  lemma HexOfByte(h: nat, i: nat)
    requires i < 8
    ensures IsHexDigit(HexEncode(BigEndian(h, 8))[2 * i], h / Pow16(15 - 2 * i) % 16)
    ensures IsHexDigit(HexEncode(BigEndian(h, 8))[2 * i + 1], h / Pow16(14 - 2 * i) % 16)
  {
    BigEndianAt(h, 8, i);
    HexAt(BigEndian(h, 8), i);
    ByteNibbles(h, 7 - i);
  }

  /** Character j of a chunk's directory name is the j-th of the 16 hexadecimal digits of the
      hash of its object, most significant first; the file's name is the index. */
  lemma PathIs(baseDir: string, k: ChunkKey, j: nat)
    requires j < 16
    ensures IsHexDigit(HashHex(k.objectKey)[j], Hash64(k.objectKey) / Pow16(15 - j) % 16)
    ensures var h := HashHex(k.objectKey);
            ChunkPath(baseDir, k) == baseDir + "/" + [h[0], h[1]] + "/" + h + "/" + Print(k.chunkIndex)
  {
    HexOfByte(Hash64(k.objectKey), j / 2);
    assert j == 2 * (j / 2) || j == 2 * (j / 2) + 1;
    var h := HashHex(k.objectKey);
    assert h[..2] == [h[0], h[1]];
  }

  // ---------------------------------------------------------------- shared files

  /** Two chunks share a file exactly if their objects' hashes collide and their indices agree. */
  lemma SameFileIff(baseDir: string, k: ChunkKey, k': ChunkKey)
    ensures ChunkPath(baseDir, k) == ChunkPath(baseDir, k') <==>
            Hash64(k.objectKey) == Hash64(k'.objectKey) && k.chunkIndex == k'.chunkIndex
  {
    HashHexInjective(k.objectKey, k'.objectKey);
    if ChunkPath(baseDir, k) == ChunkPath(baseDir, k') {
      var h, h' := HashHex(k.objectKey), HashHex(k'.objectKey);
      PathParts(baseDir, k);
      PathParts(baseDir, k');
      CutEqual(baseDir + "/", h[..2] + "/" + h + "/", Print(k.chunkIndex),
               h'[..2] + "/" + h' + "/", Print(k'.chunkIndex));
      HashInPath(h, h');
      PrintInjective(k.chunkIndex, k'.chunkIndex);
    }
  }

  /** The file a write is prepared in is never the file of any chunk. */
  lemma TmpIsNoChunk(baseDir: string, k: ChunkKey, k': ChunkKey)
    ensures TmpPath(baseDir, k) != ChunkPath(baseDir, k')
  {
    var p, q := TmpPath(baseDir, k), ChunkPath(baseDir, k');
    var d := Print(k'.chunkIndex);
    assert p[|p| - 1] == 'p';
    assert q[|q| - 1] == d[|d| - 1];
  }
}
