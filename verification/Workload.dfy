/** The request generator of the benchmark: runs of range requests over one file. Random draws
    are parameters. */
module Workload {
  import opened Basics
  import opened Predictor
  import opened ContiguousReader

  datatype RangeReq = RangeReq(off: int, length: int, index: int)

  // ---------------------------------------------------------------- sequential

  /** The requests cover the bytes from .. to - 1 once, in order, in steps of chunk; only the
      last may be shorter. */
  ghost predicate Tiles(reqs: seq<RangeReq>, from: int, to: int, chunk: int, first: int) {
    && (from >= to ==> reqs == [])
    && (from < to ==> reqs != [] && reqs[0].off == from && End(reqs[|reqs| - 1]) == to)
    && (forall i | 0 < i < |reqs| :: reqs[i].off == End(reqs[i - 1]))
    && (forall i | 0 <= i < |reqs| :: reqs[i].index == first + i && 0 < reqs[i].length <= chunk)
    && (forall i | 0 <= i < |reqs| - 1 :: reqs[i].length == chunk)
  }

  function End(r: RangeReq): int { r.off + r.length }

  method Sequential(from: int, to: int, chunk: int, seq0: int) returns (reqs: seq<RangeReq>)
    requires chunk > 0
    ensures Tiles(reqs, from, to, chunk, seq0)
    ensures forall i | 0 <= i < |reqs| :: from <= reqs[i].off && End(reqs[i]) <= to
  {
    reqs := [];
    var off, i := from, seq0;
    while off < to
      invariant i == seq0 + |reqs|
      invariant reqs == [] ==> off == from
      invariant reqs != [] ==> reqs[0].off == from && End(reqs[|reqs| - 1]) == Min(off, to)
      invariant off > to && from < to ==> reqs != []
      invariant forall j | 0 < j < |reqs| :: reqs[j].off == End(reqs[j - 1])
      invariant forall j | 0 <= j < |reqs| :: reqs[j].index == seq0 + j && 0 < reqs[j].length <= chunk
      invariant forall j | 0 <= j < |reqs| - 1 :: reqs[j].length == chunk
      invariant off < to ==> forall j | 0 <= j < |reqs| :: reqs[j].length == chunk
      invariant forall j | 0 <= j < |reqs| :: from <= reqs[j].off && End(reqs[j]) <= to
      invariant from <= off
      invariant from >= to ==> reqs == []
    {
      reqs := reqs + [RangeReq(off, Min(chunk, to - off), i)];
      off, i := off + chunk, i + 1;
    }
  }

  /** The positions at which the requests cut the file. */
  function CutsOf(reqs: seq<RangeReq>): seq<int> {
    if reqs == [] then [] else seq(|reqs|, i requires 0 <= i < |reqs| => reqs[i].off) + [End(reqs[|reqs| - 1])]
  }

  lemma {:induction false} OffsetsGrow(reqs: seq<RangeReq>, from: nat, to: nat, chunk: int, first: int, i: nat)
    requires Tiles(reqs, from, to, chunk, first) && i < |reqs|
    ensures reqs[i].off >= from
  {
    if i > 0 { OffsetsGrow(reqs, from, to, chunk, first, i - 1); }
  }

  lemma TilesAreCuts(reqs: seq<RangeReq>, from: nat, to: nat, chunk: int, first: int)
    requires Tiles(reqs, from, to, chunk, first) && from < to
    ensures forall i | 0 <= i < |CutsOf(reqs)| :: CutsOf(reqs)[i] >= 0
    ensures Cuts(CutsOf(reqs))
  {
    forall i | 0 <= i < |reqs| ensures reqs[i].off >= 0 { OffsetsGrow(reqs, from, to, chunk, first, i); }
    var cuts := CutsOf(reqs);
    forall i | 0 < i < |cuts| ensures cuts[i - 1] < cuts[i] {
      if i < |reqs| { assert reqs[i].off == End(reqs[i - 1]); }
    }
  }

  /** The requests of a sequential run are a way to cut the file, so the proxy's predictor sees
      an unbroken streak over all its chunks. */
  lemma SequentialKeepsStreak(reqs: seq<RangeReq>, from: nat, to: nat, chunk: int, first: int,
                              cuts: seq<nat>, h: seq<Read>)
    requires Tiles(reqs, from, to, chunk, first) && from < to && cuts == CutsOf(reqs)
    requires Reads(h, Touched(cuts, |cuts| - 1))
    ensures StateAfter(h).Some? && StateAfter(h).value.streakLen == ChunkOf(to - 1) - ChunkOf(from) + 1
  {
    TilesAreCuts(reqs, from, to, chunk, first);
    ContiguousReaderKeepsStreak(cuts, h);
  }

  // ---------------------------------------------------------------- capBytes

  function Total(reqs: seq<RangeReq>, n: nat): int
    requires n <= |reqs|
  {
    if n == 0 then 0 else Total(reqs, n - 1) + reqs[n - 1].length
  }

  /** At most maxBytes in all: the longest prefix that fits, but never less than one request. */
  method CapBytes(reqs: seq<RangeReq>, maxBytes: int) returns (capped: seq<RangeReq>)
    ensures capped <= reqs
    ensures maxBytes <= 0 ==> capped == reqs
    ensures reqs != [] ==> capped != []
    ensures maxBytes > 0 ==> |capped| <= 1 || Total(reqs, |capped|) <= maxBytes
    ensures maxBytes > 0 && |capped| < |reqs| ==> Total(reqs, |capped| + 1) > maxBytes || Total(reqs, 1) > maxBytes
  {
    if maxBytes <= 0 {
      return reqs;
    }
    var total := 0;
    for i := 0 to |reqs|
      invariant total == Total(reqs, i) <= maxBytes
    {
      total := total + reqs[i].length;
      if total > maxBytes {
        return reqs[..Max(1, i)];
      }
    }
    return reqs;
  }

  // ---------------------------------------------------------------- the sessions' requests

  /** Each request asks for at least one byte and none past the end of the file. */
  ghost predicate Satisfiable(reqs: seq<RangeReq>, size: int) {
    forall r | r in reqs :: 0 <= r.off && 0 < r.length && End(r) <= size
  }

  lemma Within(reqs: seq<RangeReq>, from: int, to: int, size: int)
    requires 0 <= from && to <= size
    requires forall i | 0 <= i < |reqs| :: from <= reqs[i].off && 0 < reqs[i].length && End(reqs[i]) <= to
    ensures Satisfiable(reqs, size)
  {
  }

  /** Where the viewer lands, on a segment boundary. */
  function Landing(chunk: int, target: int): int
    requires chunk > 0
  {
    target - target % chunk
  }

  /** It is the last segment boundary that is not past the target. */
  lemma RoundDown(x: nat, chunk: int)
    requires chunk > 0
    ensures 0 <= Landing(chunk, x) <= x < Landing(chunk, x) + chunk
    ensures exists i: nat :: Landing(chunk, x) == chunk * i
  {
    var i: nat := x / chunk;
    assert x == chunk * i + x % chunk;
    assert Landing(chunk, x) == chunk * i;
  }

  /** The first n requests tile the opening, the others as many bytes from the landing on, as
      far as the file goes. */
  ghost predicate Skips(reqs: seq<RangeReq>, n: nat, size: int, chunk: int, end: int, first: int, seekTo: int)
    requires n <= |reqs|
  {
    && Tiles(reqs[..n], 0, first, chunk, 0)
    && Tiles(reqs[n..], seekTo, Min(size, seekTo + (end - first)), chunk, 0)
  }

  ghost predicate SkipsAhead(reqs: seq<RangeReq>, size: int, chunk: int, end: int, first: int, seekTo: int) {
    exists n | 0 <= n <= |reqs| :: Skips(reqs, n, size, chunk, end, first, seekTo)
  }

  lemma Joined(opening: seq<RangeReq>, rest: seq<RangeReq>, size: int, chunk: int, end: int, first: int, seekTo: int)
    requires Tiles(opening, 0, first, chunk, 0)
    requires Tiles(rest, seekTo, Min(size, seekTo + (end - first)), chunk, 0)
    ensures SkipsAhead(opening + rest, size, chunk, end, first, seekTo)
  {
    var reqs := opening + rest;
    assert reqs[..|opening|] == opening && reqs[|opening|..] == rest;
    assert Skips(reqs, |opening|, size, chunk, end, first, seekTo);
  }

  /** Both runs of a viewer who jumps. */
  method TwoRuns(size: int, chunk: int, end: int, first: int, seekTo: int) returns (reqs: seq<RangeReq>)
    requires chunk > 0 && 0 <= first <= end <= size && 0 <= seekTo
    ensures Satisfiable(reqs, size) && SkipsAhead(reqs, size, chunk, end, first, seekTo)
  {
    var opening := Sequential(0, first, chunk, 0);
    Within(opening, 0, first, size);
    var upTo := Min(size, seekTo + (end - first));
    var rest := Sequential(seekTo, upTo, chunk, 0);
    Within(rest, seekTo, upTo, size);
    Joined(opening, rest, size, chunk, end, first, seekTo);
    reqs := opening + rest;
  }

  /** Playing a video: end bytes are watched; with skip, after a few opening segments the
      viewer jumps ahead. k and jump are the random draws. */
  method VideoReads(size: int, chunk: int, end: int, skip: bool, k: int, jump: int) returns (reqs: seq<RangeReq>)
    requires chunk > 0 && 0 <= end <= size && 0 <= k < 4
    requires 0 <= jump < Max(1, size - Min(end, chunk * (2 + k)))
    ensures Satisfiable(reqs, size)
    ensures !skip ==> Tiles(reqs, 0, Max(end, Min(size, chunk)), chunk, 0)
    ensures skip ==> var first := Min(end, chunk * (2 + k));
                     SkipsAhead(reqs, size, chunk, end, first, Landing(chunk, first + jump))
  {
    if skip {
      var first := Min(end, chunk * (2 + k));
      RoundDown(first + jump, chunk);
      reqs := TwoRuns(size, chunk, end, first, Landing(chunk, first + jump));
      return reqs;
    }
    reqs := Sequential(0, Max(end, Min(size, chunk)), chunk, 0);
    Within(reqs, 0, Max(end, Min(size, chunk)), size);
  }

  /** Reading a PDF: the trailer at the end, then pages from the start. Of an empty file, this
      asks for no bytes at all. */
  method PdfReads(size: int, chunk: int, k: int) returns (reqs: seq<RangeReq>)
    requires chunk > 0 && size >= 0 && 0 <= k < 14
    ensures Satisfiable(reqs, size) <==> size > 0
    ensures reqs != [] && reqs[0] == RangeReq(size - Min(size, 65536), Min(size, 65536), -1)
    ensures Tiles(reqs[1..], 0, Min(size, (2 + k) * chunk), chunk, 0)
  {
    var tail := Min(size, 65536);
    var pages := Sequential(0, Min(size, (2 + k) * chunk), chunk, 0);
    reqs := [RangeReq(size - tail, tail, -1)] + pages;
    assert reqs[1..] == pages && reqs[0] in reqs;
  }
}
