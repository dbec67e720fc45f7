/** The benchmark's synthetic files: deterministic content that can be read anywhere, and that
    never repeats a block. */
module Synth {
  import opened Basics
  import opened Fnv
  import opened ColdPath

  const GAMMA: int := 0x9e3779b97f4a7c15
  const MIX_1: int := 0xbf58476d1ce4e5b9
  const MIX_2: int := 0x94d049bb133111eb
  const INVERSE_1: int := 10871156337175269513
  const INVERSE_2: int := 3573116690164977347

  /** x >> n. */
  function Shr(x: nat, n: nat): (r: nat)
    ensures r <= x
    decreases x, n
  {
    if n == 0 then x else Shr(x / 2, n - 1)
  }

  lemma XorWord(x: uint64, y: uint64)
    ensures Xor(x, y) < TWO_64
  {
    PowersOf64();
    XorBelow(x, y, 64);
  }

  function XorOf(x: uint64, y: uint64): uint64 {
    XorWord(x, y);
    Xor(x, y)
  }

  /** x ^ (x >> n). */
  function ShiftXor(x: uint64, n: nat): uint64 { XorOf(x, Shr(x, n)) }

  function Mul1(x: uint64): uint64 { x * MIX_1 % TWO_64 }

  function Mul2(x: uint64): uint64 { x * MIX_2 % TWO_64 }

  function SplitMix(x: uint64): uint64 {
    ShiftXor(Mul2(ShiftXor(Mul1(ShiftXor((x + GAMMA) % TWO_64, 30)), 27)), 31)
  }

  lemma {:induction false} ShrIs(x: nat, n: nat)
    ensures Shr(x, n) == x / Pow2(n)
    decreases n
  {
    if n > 0 {
      ShrIs(x / 2, n - 1);
      DivTwice(x, 2, Pow2(n - 1));
    }
  }

  lemma PowersOfShifts()
    ensures Pow2(30) == 0x4000_0000 && Pow2(27) == 0x800_0000 && Pow2(31) == 0x8000_0000
  {
    PowEight(0);
    PowEight(8);
    PowEight(16);
    assert Pow2(27) == 8 * Pow2(24);
    assert Pow2(30) == 8 * Pow2(27);
  }

  /** splitmix in plain numbers: shifts are divisions, and words wrap around. */
  lemma SplitMixIs(x: uint64, a: nat, b: nat, c: nat)
    requires a == (x + 0x9e3779b97f4a7c15) % 0x1_0000_0000_0000_0000
    requires b == Xor(a, a / 0x4000_0000) * 0xbf58476d1ce4e5b9 % 0x1_0000_0000_0000_0000
    requires c == Xor(b, b / 0x800_0000) * 0x94d049bb133111eb % 0x1_0000_0000_0000_0000
    ensures SplitMix(x) == Xor(c, c / 0x8000_0000)
  {
    PowersOfShifts();
    ShrIs(a, 30);
    ShrIs(b, 27);
    ShrIs(c, 31);
  }

  // ---------------------------------------------------------------- it is a bijection

  lemma {:induction false} XorZero(a: nat)
    ensures Xor(a, 0) == a && Xor(a, a) == 0
  {
    if a != 0 { XorZero(a / 2); }
  }

  lemma SameBits(x: nat, y: nat)
    requires x / 2 == y / 2 && x % 2 == y % 2
    ensures x == y
  {
  }

  function Flip(a: nat, b: nat): nat { (a + b) % 2 }

  lemma {:induction false} BitOf(a: nat, b: nat)
    ensures Xor(a, b) % 2 == Flip(a % 2, b % 2)
  {
    XorParts(a, b);
  }

  lemma FlipAssoc(a: nat, b: nat, c: nat)
    requires a < 2 && b < 2 && c < 2
    ensures Flip(Flip(a, b), c) == Flip(a, Flip(b, c))
  {
  }

  lemma BitAssoc(a: nat, b: nat, c: nat)
    ensures Xor(Xor(a, b), c) % 2 == Xor(a, Xor(b, c)) % 2
  {
    BitOf(a, b);
    BitOf(b, c);
    BitOf(Xor(a, b), c);
    BitOf(a, Xor(b, c));
    FlipAssoc(a % 2, b % 2, c % 2);
  }

  lemma RestAssoc(a: nat, b: nat, c: nat)
    ensures Xor(Xor(a, b), c) / 2 == Xor(Xor(a / 2, b / 2), c / 2)
    ensures Xor(a, Xor(b, c)) / 2 == Xor(a / 2, Xor(b / 2, c / 2))
  {
    XorParts(a, b);
    XorParts(b, c);
    XorParts(Xor(a, b), c);
    XorParts(a, Xor(b, c));
  }

  lemma {:induction false} XorAssoc(a: nat, b: nat, c: nat)
    ensures Xor(Xor(a, b), c) == Xor(a, Xor(b, c))
    decreases a + b + c
  {
    if a != 0 || b != 0 || c != 0 {
      BitAssoc(a, b, c);
      RestAssoc(a, b, c);
      XorAssoc(a / 2, b / 2, c / 2);
      SameBits(Xor(Xor(a, b), c), Xor(a, Xor(b, c)));
    }
  }

  /** Shifting right distributes over exclusive or. */
  lemma {:induction false} XorShifted(a: nat, b: nat, n: nat)
    ensures Shr(Xor(a, b), n) == Xor(Shr(a, n), Shr(b, n))
    decreases n
  {
    if n > 0 {
      XorParts(a, b);
      XorShifted(a / 2, b / 2, n - 1);
    }
  }

  lemma {:induction false} ShiftTwice(x: nat, m: nat, n: nat)
    ensures Shr(Shr(x, m), n) == Shr(x, m + n)
    decreases m
  {
    if m > 0 { ShiftTwice(x / 2, m - 1, n); }
  }

  lemma {:induction false} ShiftedOut(x: nat, k: nat, n: nat)
    requires x < Pow2(k) && k <= n
    ensures Shr(x, n) == 0
    decreases n
  {
    if k > 0 { ShiftedOut(x / 2, k - 1, n - 1); } else if n > 0 { ShiftedOut(0, 0, n - 1); }
  }

  function ShiftXorBack(y: uint64, n: nat): uint64 { XorOf(ShiftXor(y, n), Shr(y, 2 * n)) }

  lemma Cancel(x: nat, a: nat, b: nat)
    ensures Xor(Xor(Xor(x, a), Xor(a, b)), b) == x
    ensures Xor(Xor(Xor(x, a), b), Xor(a, b)) == x
  {
    XorAssoc(Xor(x, a), Xor(a, b), b);
    XorUndo(a, b);
    XorUndo(x, a);
    XorAssoc(x, a, b);
    XorUndo(x, Xor(a, b));
  }

  /** A shift by at least 22 of a 64-bit word is undone by three terms, in either order. */
  lemma ShiftXorInverts(x: uint64, n: nat)
    requires 22 <= n
    ensures ShiftXorBack(ShiftXor(x, n), n) == x
    ensures ShiftXor(ShiftXorBack(x, n), n) == x
  {
    var a, b := Shr(x, n), Shr(x, 2 * n);
    ShiftTwice(x, n, n);
    ShiftTwice(x, 2 * n, n);
    ShiftTwice(x, n, 2 * n);
    PowersOf64();
    ShiftedOut(x, 64, 3 * n);
    XorShifted(x, a, n);
    XorShifted(x, a, 2 * n);
    XorShifted(Xor(x, a), b, n);
    Cancel(x, a, b);
    XorZero(b);
    XorZero(Xor(a, b));
  }

  function MulBack1(x: uint64): uint64 { x * INVERSE_1 % TWO_64 }

  function MulBack2(x: uint64): uint64 { x * INVERSE_2 % TWO_64 }

  lemma Product1(x: uint64)
    ensures MulBack1(Mul1(x)) == x && Mul1(MulBack1(x)) == x
  {
    var c := 8125545580553827436;
    assert MIX_1 * INVERSE_1 == 1 + TWO_64 * c;
    var q, q' := x * MIX_1 / TWO_64, x * INVERSE_1 / TWO_64;
    ModIs(Mul1(x) * INVERSE_1, TWO_64, c * x - q * INVERSE_1, x);
    ModIs(MulBack1(x) * MIX_1, TWO_64, c * x - q' * MIX_1, x);
  }

  lemma Product2(x: uint64)
    ensures MulBack2(Mul2(x)) == x && Mul2(MulBack2(x)) == x
  {
    var c := 2077064247507883091;
    assert MIX_2 * INVERSE_2 == 1 + TWO_64 * c;
    var q, q' := x * MIX_2 / TWO_64, x * INVERSE_2 / TWO_64;
    ModIs(Mul2(x) * INVERSE_2, TWO_64, c * x - q * INVERSE_2, x);
    ModIs(MulBack2(x) * MIX_2, TWO_64, c * x - q' * MIX_2, x);
  }

  function UnMix(y: uint64): uint64 {
    (ShiftXorBack(MulBack1(ShiftXorBack(MulBack2(ShiftXorBack(y, 31)), 27)), 30) - GAMMA) % TWO_64
  }

  lemma AddBack(x: uint64)
    ensures ((x + GAMMA) % TWO_64 - GAMMA) % TWO_64 == x
    ensures ((x - GAMMA) % TWO_64 + GAMMA) % TWO_64 == x
  {
  }

  lemma Unmixed(x: uint64)
    ensures UnMix(SplitMix(x)) == x
  {
    var a := (x + GAMMA) % TWO_64;
    var b := Mul1(ShiftXor(a, 30));
    AddBack(x);
    ShiftXorInverts(Mul2(ShiftXor(b, 27)), 31);
    Product2(ShiftXor(b, 27));
    ShiftXorInverts(b, 27);
    Product1(ShiftXor(a, 30));
    ShiftXorInverts(a, 30);
  }

  lemma Remixed(x: uint64)
    ensures SplitMix(UnMix(x)) == x
  {
    var c := ShiftXorBack(x, 31);
    var d := ShiftXorBack(MulBack2(c), 27);
    AddBack(ShiftXorBack(MulBack1(d), 30));
    ShiftXorInverts(MulBack1(d), 30);
    Product1(d);
    ShiftXorInverts(MulBack2(c), 27);
    Product2(c);
    ShiftXorInverts(x, 31);
  }

  /** splitmix is a bijection of the 64-bit words, with this inverse. */
  lemma SplitMixIsBijective(x: uint64)
    ensures UnMix(SplitMix(x)) == x && SplitMix(UnMix(x)) == x
  {
    Unmixed(x);
    Remixed(x);
  }

  // ---------------------------------------------------------------- content

  /** byte(w >> (8 * i)). */
  function WordByte(w: uint64, i: nat): byte { Shr(w, 8 * i) % 256 }

  /** The byte of the file at position off. */
  function ByteAt(seed: uint64, header: bytes, off: nat): byte {
    if off < |header| then header[off] else NoiseAt(seed, off)
  }

  function NoiseAt(seed: uint64, off: nat): byte {
    WordByte(SplitMix(XorOf(seed, Word(off))), off % 8)
  }

  /** uint64(off >> 3). */
  function Word(off: nat): uint64 { off / 8 % TWO_64 }

  function Content(seed: uint64, header: bytes, from: nat, n: nat): (b: bytes)
    ensures |b| == n && forall i | 0 <= i < n :: b[i] == ByteAt(seed, header, from + i)
  {
    if n == 0 then [] else Content(seed, header, from, n - 1) + [ByteAt(seed, header, from + n - 1)]
  }

  /** Reads of any sizes, one after the other, make up one read. */
  lemma ReadsJoin(seed: uint64, header: bytes, from: nat, m: nat, n: nat)
    ensures Content(seed, header, from, m) + Content(seed, header, from + m, n) == Content(seed, header, from, m + n)
  {
    var l, r := Content(seed, header, from, m) + Content(seed, header, from + m, n), Content(seed, header, from, m + n);
    forall i | 0 <= i < m + n ensures l[i] == r[i] {
      if i >= m { assert Content(seed, header, from + m, n)[i - m] == ByteAt(seed, header, from + m + (i - m)); }
    }
  }

  lemma LowByte(v: nat, w: nat, k: nat)
    requires Shr(v, k + 8) == Shr(w, k + 8) && Shr(v, k) % 256 == Shr(w, k) % 256
    ensures Shr(v, k) == Shr(w, k)
  {
    ShiftTwice(v, k, 8);
    ShiftTwice(w, k, 8);
    ShrEight(Shr(v, k));
    ShrEight(Shr(w, k));
  }

  lemma ShrEight(x: nat)
    ensures Shr(x, 8) == x / 256
  {
    ShiftTwice(x, 4, 4);
    ShrFour(x);
    ShrFour(Shr(x, 4));
  }

  lemma ShrFour(x: nat)
    ensures Shr(x, 4) == x / 16
  {
    ShiftTwice(x, 2, 2);
    assert forall y: nat :: Shr(y, 2) == Shr(y / 2, 1) == y / 2 / 2;
  }

  lemma {:induction false} BytesDecide(v: uint64, w: uint64, n: nat)
    requires n <= 8 && forall i | n <= i < 8 :: WordByte(v, i) == WordByte(w, i)
    ensures Shr(v, 8 * n) == Shr(w, 8 * n)
    decreases 8 - n
  {
    if n == 8 {
      PowersOf64();
      ShiftedOut(v, 64, 64);
      ShiftedOut(w, 64, 64);
    } else {
      BytesDecide(v, w, n + 1);
      assert WordByte(v, n) == WordByte(w, n);
      LowByte(v, w, 8 * n);
    }
  }

  lemma XorOfInjective(s: uint64, x: uint64, y: uint64)
    requires XorOf(s, x) == XorOf(s, y)
    ensures x == y
  {
    XorSwap(s, x);
    XorSwap(s, y);
    XorUndo(x, s);
    XorUndo(y, s);
  }

  lemma WordOfBlock(i: nat, j: nat)
    requires i < TWO_64 && j < 8
    ensures Word(8 * i + j) == i && (8 * i + j) % 8 == j
  {
    assert (8 * i + j) / 8 == i;
  }

  lemma NoiseByte(seed: uint64, i: nat, j: nat)
    requires i < TWO_64 && j < 8
    ensures NoiseAt(seed, 8 * i + j) == WordByte(SplitMix(XorOf(seed, i)), j)
  {
    WordOfBlock(i, j);
  }

  lemma {:induction false} PowerOfBytes(i: nat)
    ensures Pow2(8 * i) == Pow256(i)
  {
    if i > 0 {
      PowerOfBytes(i - 1);
      PowEight(8 * (i - 1));
    }
  }

  lemma WordByteIs(w: uint64, i: nat)
    ensures WordByte(w, i) == w / Pow256(i) % 256
  {
    ShrIs(w, 8 * i);
    PowerOfBytes(i);
  }

  /** Byte j of block i: the header's, as far as that reaches; past it the byte of weight 256^j
      of the word that splitmix makes of the seed, exclusive or the block's number. */
  lemma ByteIs(seed: uint64, header: bytes, i: nat, j: nat, word: uint64)
    requires i < TWO_64 && j < 8 && word == Xor(seed, i)
    ensures ByteAt(seed, header, 8 * i + j) ==
            if 8 * i + j < |header| then header[8 * i + j] else SplitMix(word) / Pow256(j) % 256
  {
    NoiseByte(seed, i, j);
    WordByteIs(SplitMix(word), j);
  }

  lemma SameWord(v: uint64, w: uint64)
    requires forall k | 0 <= k < 8 :: WordByte(v, k) == WordByte(w, k)
    ensures v == w
  {
    BytesDecide(v, w, 0);
  }

  lemma SplitMixInjective(x: uint64, y: uint64)
    requires SplitMix(x) == SplitMix(y)
    ensures x == y
  {
    Unmixed(x);
    Unmixed(y);
  }

  lemma EqualContent(seed: uint64, header: bytes, a: nat, b: nat, n: nat, k: nat)
    requires Content(seed, header, a, n) == Content(seed, header, b, n) && k < n
    ensures ByteAt(seed, header, a + k) == ByteAt(seed, header, b + k)
  {
    assert Content(seed, header, a, n)[k] == Content(seed, header, b, n)[k];
  }

  lemma EqualBlockBytes(seed: uint64, header: bytes, i: nat, j: nat, k: nat)
    requires |header| <= 8 * i && |header| <= 8 * j && i < TWO_64 && j < TWO_64 && k < 8
    requires ByteAt(seed, header, 8 * i + k) == ByteAt(seed, header, 8 * j + k)
    ensures WordByte(SplitMix(XorOf(seed, i)), k) == WordByte(SplitMix(XorOf(seed, j)), k)
  {
    NoiseByte(seed, i, k);
    NoiseByte(seed, j, k);
  }

  /** No two different aligned 8-byte blocks past the header of one file are equal. */
  lemma BlocksDiffer(seed: uint64, header: bytes, i: nat, j: nat)
    requires |header| <= 8 * i && |header| <= 8 * j && i < TWO_64 && j < TWO_64
    ensures Content(seed, header, 8 * i, 8) == Content(seed, header, 8 * j, 8) <==> i == j
  {
    if Content(seed, header, 8 * i, 8) == Content(seed, header, 8 * j, 8) {
      forall k | 0 <= k < 8
        ensures WordByte(SplitMix(XorOf(seed, i)), k) == WordByte(SplitMix(XorOf(seed, j)), k) {
        EqualContent(seed, header, 8 * i, 8 * j, 8, k);
        EqualBlockBytes(seed, header, i, j, k);
      }
      SameWord(SplitMix(XorOf(seed, i)), SplitMix(XorOf(seed, j)));
      SplitMixInjective(XorOf(seed, i), XorOf(seed, j));
      XorOfInjective(seed, i, j);
    }
  }

  // ---------------------------------------------------------------- the file

  const SEEK_START: int := 0
  const SEEK_CURRENT: int := 1
  const SEEK_END: int := 2

  class SynthFile {
    const seed: uint64
    const size: nat
    const header: bytes
    var pos: nat

    /** newSynthFile; the header is the format marker that the key's file kind calls for. */
    constructor (key: bytes, size: nat, header: bytes)
      ensures seed == Hash64(key) && this.size == size && this.header == header && pos == 0
    {
      FoldFits(OFFSET_64, key);
      var h := Fnv1aHash64(key);
      seed, this.size, this.header, pos := h, size, header, 0;
    }

    /** Fills as much of p as the file still has bytes for; false at the end of the file. */
    method Read(p: array<byte>) returns (n: nat, ok: bool)
      modifies p, `pos
      ensures ok == (old(pos) < size)
      ensures n == if ok then Min(p.Length, size - old(pos)) else 0
      ensures p[..] == Content(seed, header, old(pos), n) + old(p[n..]) && pos == old(pos) + n
    {
      if pos >= size {
        return 0, false;
      }
      n := Min(p.Length, size - pos);
      for i := 0 to n
        invariant pos == old(pos)
        invariant forall k | 0 <= k < i :: p[k] == ByteAt(seed, header, pos + k)
        invariant forall k | i <= k < p.Length :: p[k] == old(p[k])
      {
        var off := pos + i;
        if off < |header| {
          p[i] := header[off];
        } else {
          p[i] := NoiseAt(seed, off);
        }
      }
      assert p[..n] == Content(seed, header, pos, n);
      assert p[n..] == old(p[n..]);
      pos := pos + n;
      ok := true;
    }

    method Seek(offset: int, whence: int) returns (abs: int, ok: bool)
      modifies `pos
      ensures var base := if whence == 0 then offset
                          else if whence == 1 then old(pos) + offset
                          else if whence == 2 then size + offset else 0;
              ok == (base >= 0) && (ok ==> abs == base && pos == base) && (!ok ==> pos == old(pos))
    {
      abs := 0;
      if whence == SEEK_START {
        abs := offset;
      } else if whence == SEEK_CURRENT {
        abs := pos + offset;
      } else if whence == SEEK_END {
        abs := size + offset;
      }
      if abs < 0 {
        return 0, false;
      }
      pos := abs;
      ok := true;
    }
  }
}
