/** A reader that takes an object's bytes in order, in pieces of any size, keeps its streak. */
module ContiguousReader {
  import opened Basics
  import opened Predictor

  /** Each read is of the same chunk as the one before, or of the next one at a later time. */
  ghost predicate Climbs(h: seq<Read>) {
    forall i | 0 < i < |h| :: ClimbsAt(h, i)
  }

  predicate ClimbsAt(h: seq<Read>, i: nat)
    requires 0 < i < |h|
  {
    && h[i - 1].time <= h[i].time
    && (h[i].chunk == h[i - 1].chunk || (h[i].chunk == h[i - 1].chunk + 1 && h[i - 1].time < h[i].time))
  }

  lemma {:induction false} ClimbKeepsStreak(h: seq<Read>)
    requires Climbs(h) && h != []
    ensures StateAfter(h).Some? && h[0].chunk <= h[|h| - 1].chunk
    ensures var s := StateAfter(h).value;
            s.streakLen == h[|h| - 1].chunk - h[0].chunk + 1
            && s.lastChunkIndex == h[|h| - 1].chunk && s.lastReadAt <= h[|h| - 1].time
  {
    var t := h[..|h| - 1];
    if t != [] {
      forall i | 0 < i < |t| ensures ClimbsAt(t, i) { assert ClimbsAt(h, i); }
      ClimbKeepsStreak(t);
      assert ClimbsAt(h, |h| - 1);
    }
  }

  // ---------------------------------------------------------------- pieces of a byte range

  /** Strictly increasing positions: piece i is the bytes from cuts[i] up to cuts[i + 1]. */
  ghost predicate Cuts(cuts: seq<nat>) {
    |cuts| > 0 && forall i | 0 < i < |cuts| :: cuts[i - 1] < cuts[i]
  }

  /** The chunks first .. last. */
  function Up(first: nat, last: nat): (s: seq<nat>)
    requires first <= last
    ensures |s| == last - first + 1 && forall i | 0 <= i < |s| :: s[i] == first + i
    decreases last - first
  {
    if first == last then [first] else Up(first, last - 1) + [last]
  }

  /** The chunks recorded while the first n pieces are served, one range request each; a piece
      without bytes touches none. */
  function Touched(cuts: seq<nat>, n: nat): seq<nat>
    requires n < |cuts|
  {
    if n == 0 then []
    else if cuts[n - 1] >= cuts[n] then Touched(cuts, n - 1)
    else
      ChunkOfMonotone(cuts[n - 1], cuts[n] - 1);
      Touched(cuts, n - 1) + Up(ChunkOf(cuts[n - 1]), ChunkOf(cuts[n] - 1))
  }

  ghost predicate StepsUp(s: seq<nat>) {
    forall i | 0 < i < |s| :: s[i] == s[i - 1] || s[i] == s[i - 1] + 1
  }

  lemma NextByte(p: nat)
    ensures ChunkOf(p + 1) == ChunkOf(p) || ChunkOf(p + 1) == ChunkOf(p) + 1
  {
  }

  lemma Glue(a: seq<nat>, b: seq<nat>)
    requires StepsUp(a) && StepsUp(b) && a != [] && b != []
    requires b[0] == a[|a| - 1] || b[0] == a[|a| - 1] + 1
    ensures StepsUp(a + b)
  {
    forall i | 0 < i < |a + b| ensures (a + b)[i] == (a + b)[i - 1] || (a + b)[i] == (a + b)[i - 1] + 1 {
      if i < |a| { assert a[i] == a[i - 1] || a[i] == a[i - 1] + 1; }
      if i > |a| { assert b[i - |a|] == b[i - |a| - 1] || b[i - |a|] == b[i - |a| - 1] + 1; }
    }
  }

  lemma Piece(cuts: seq<nat>, n: nat) returns (piece: seq<nat>)
    requires Cuts(cuts) && 0 < n < |cuts|
    ensures Touched(cuts, n) == Touched(cuts, n - 1) + piece && piece != [] && StepsUp(piece)
    ensures piece[0] == ChunkOf(cuts[n - 1]) && piece[|piece| - 1] == ChunkOf(cuts[n] - 1)
  {
    ChunkOfMonotone(cuts[n - 1], cuts[n] - 1);
    piece := Up(ChunkOf(cuts[n - 1]), ChunkOf(cuts[n] - 1));
  }

  lemma {:induction false} TouchedStepsUp(cuts: seq<nat>, n: nat)
    requires Cuts(cuts) && 0 < n < |cuts|
    ensures var s := Touched(cuts, n);
            s != [] && StepsUp(s) && s[0] == ChunkOf(cuts[0]) && s[|s| - 1] == ChunkOf(cuts[n] - 1)
  {
    var piece := Piece(cuts, n);
    if n > 1 {
      TouchedStepsUp(cuts, n - 1);
      NextByte(cuts[n - 1] - 1);
      Glue(Touched(cuts, n - 1), piece);
    } else {
      assert Touched(cuts, 0) + piece == piece;
    }
  }

  /** The reads are of these chunks; time never runs back and passes between distinct chunks. */
  ghost predicate Reads(h: seq<Read>, chunks: seq<nat>) {
    && |h| == |chunks|
    && (forall i | 0 <= i < |h| :: h[i].chunk == chunks[i])
    && (forall i | 0 < i < |h| :: TimePasses(h[i - 1], h[i]))
  }

  predicate TimePasses(a: Read, b: Read) {
    a.time <= b.time && (a.chunk != b.chunk ==> a.time < b.time)
  }

  /** Whatever the pieces into which the bytes from first up to end are cut, however many of
      them fall into one chunk or span several: if each is read after the one before, and
      nobody else reads the object, the streak covers every chunk touched. */
  lemma ContiguousReaderKeepsStreak(cuts: seq<nat>, h: seq<Read>)
    requires Cuts(cuts) && |cuts| > 1 && Reads(h, Touched(cuts, |cuts| - 1))
    ensures cuts[0] < cuts[|cuts| - 1] && StateAfter(h).Some?
    ensures StateAfter(h).value.streakLen == ChunkOf(cuts[|cuts| - 1] - 1) - ChunkOf(cuts[0]) + 1
  {
    var n := |cuts| - 1;
    FirstIsLeast(cuts, n);
    TouchedStepsUp(cuts, n);
    var s := Touched(cuts, n);
    forall i | 0 < i < |h| ensures ClimbsAt(h, i) {
      assert TimePasses(h[i - 1], h[i]) && (s[i] == s[i - 1] || s[i] == s[i - 1] + 1);
    }
    ClimbKeepsStreak(h);
  }

  lemma {:induction false} FirstIsLeast(cuts: seq<nat>, n: nat)
    requires Cuts(cuts) && n < |cuts|
    ensures cuts[0] + n <= cuts[n]
  {
    if n > 0 { FirstIsLeast(cuts, n - 1); }
  }
}
