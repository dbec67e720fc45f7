/** The sequential-read predictor: what its per-object state says about the reads so far. */
module Predictor {
  import opened Basics
  import opened Fnv

  datatype Config = Config(streakThreshold: int, velocityThreshold: real)

  datatype Read = Read(chunk: uint64, time: real)

  datatype ReadState = ReadState(lastChunkIndex: uint64, lastReadAt: real, streakLen: nat, velocityEWMA: real)

  /** chunkIndex + 1 on 64-bit words. */
  function Succ(c: uint64): uint64 { (c + 1) % TWO_64 }

  /** The second read continues the first: the next chunk, at a later time. */
  predicate Follows(a: Read, b: Read) { b.chunk == Succ(a.chunk) && b.time > a.time }

  /** Chunks per second between two reads. */
  function Rate(a: Read, b: Read): (r: real)
    requires b.time > a.time
    ensures r > 0.0
  {
    1.0 / (b.time - a.time)
  }

  function Smooth(v: real, instant: real): real {
    if v == 0.0 then instant else 0.3 * instant + 0.7 * v
  }

  function LastRead(st: ReadState): Read { Read(st.lastChunkIndex, st.lastReadAt) }

  /** The state of an object after one more read of it. */
  function Next(st: Option<ReadState>, r: Read): ReadState {
    match st
    case None => ReadState(r.chunk, r.time, 1, 0.0)
    case Some(s) =>
      if r.chunk == s.lastChunkIndex then s
      else if Follows(LastRead(s), r) then
        ReadState(r.chunk, r.time, s.streakLen + 1, Smooth(s.velocityEWMA, Rate(LastRead(s), r)))
      else ReadState(r.chunk, r.time, 1, 0.5 * s.velocityEWMA)
  }

  /** Does this read start a prefetch? Neither a first read nor a repeat does. */
  predicate Triggers(cfg: Config, st: Option<ReadState>, r: Read) {
    && st.Some? && r.chunk != st.value.lastChunkIndex
    && var s := Next(st, r);
       s.streakLen >= cfg.streakThreshold && s.velocityEWMA >= cfg.velocityThreshold
  }

  function StateAfter(h: seq<Read>): Option<ReadState> {
    if h == [] then None else Some(Next(StateAfter(h[..|h| - 1]), h[|h| - 1]))
  }

  /** The last read of the history starts a prefetch. */
  predicate Arms(cfg: Config, h: seq<Read>) {
    h != [] && Triggers(cfg, StateAfter(h[..|h| - 1]), h[|h| - 1])
  }

  // ---------------------------------------------------------------- what the state means

  /** The reads with repeats collapsed to the first of each. */
  function Collapsed(h: seq<Read>): seq<Read> {
    if h == [] then []
    else
      var c := Collapsed(h[..|h| - 1]);
      if c != [] && c[|c| - 1].chunk == h[|h| - 1].chunk then c else c + [h[|h| - 1]]
  }

  /** Read i is of the chunk after the one before it, on 64-bit words, and later than it. */
  predicate Continues(c: seq<Read>, i: nat)
    requires 0 < i < |c|
  {
    c[i].chunk == (c[i - 1].chunk + 1) % 0x1_0000_0000_0000_0000 && c[i].time > c[i - 1].time
  }

  /** The longest run of reads, each continuing the one before, that c ends with has length n. */
  predicate IsTailRun(c: seq<Read>, n: nat) {
    && 1 <= n <= |c|
    && (forall i | |c| - n < i < |c| :: Continues(c, i))
    && (n < |c| ==> !Continues(c, |c| - n))
  }

  lemma RunGrows(c: seq<Read>, n: nat, r: Read)
    requires IsTailRun(c, n)
    ensures IsTailRun(c + [r], if Follows(c[|c| - 1], r) then n + 1 else 1)
  {
    var d := c + [r];
    assert forall i | 0 < i < |c| :: Continues(d, i) == Continues(c, i);
    assert Continues(d, |c|) == Follows(c[|c| - 1], r);
  }

  /** The streak counter is the length of the longest sequential run that ends with the last
      read, repeats collapsed; the state's position and time are those of that read. */
  lemma {:induction false} StreakIsTheRun(h: seq<Read>)
    requires h != []
    ensures StateAfter(h).Some? && Collapsed(h) != []
    ensures var s := StateAfter(h).value;
            && LastRead(s) == Collapsed(h)[|Collapsed(h)| - 1]
            && s.lastChunkIndex == h[|h| - 1].chunk
            && IsTailRun(Collapsed(h), s.streakLen)
  {
    var t, r := h[..|h| - 1], h[|h| - 1];
    if t == [] {
      assert Collapsed(h) == [r];
    } else {
      StreakIsTheRun(t);
      RunGrows(Collapsed(t), StateAfter(t).value.streakLen, r);
    }
  }

  /** A read is dropped exactly if it is of the same chunk as the read before it. */
  lemma CollapsedSnoc(h: seq<Read>, r: Read)
    ensures Collapsed(h + [r]) ==
            if h != [] && r.chunk == h[|h| - 1].chunk then Collapsed(h) else Collapsed(h) + [r]
  {
    assert (h + [r])[..|h + [r]| - 1] == h;
    CollapsedEnds(h);
  }

  lemma {:induction false} CollapsedEnds(h: seq<Read>)
    ensures Collapsed(h) == [] <==> h == []
    ensures h != [] ==> Collapsed(h)[|Collapsed(h)| - 1].chunk == h[|h| - 1].chunk
  {
    if h != [] { CollapsedEnds(h[..|h| - 1]); }
  }

  /** The last n reads are of consecutive chunks and end with chunk last. */
  ghost predicate EndsConsecutively(c: seq<Read>, n: nat, last: uint64)
    requires n <= |c|
  {
    forall i | |c| - n <= i < |c| :: (c[i].chunk + (|c| - 1 - i)) % TWO_64 == last
  }

  lemma {:induction false} RunIsConsecutive(c: seq<Read>, n: nat, i: nat)
    requires IsTailRun(c, n) && |c| - n <= i < |c|
    ensures (c[i].chunk + (|c| - 1 - i)) % TWO_64 == c[|c| - 1].chunk
    decreases |c| - i
  {
    if i < |c| - 1 {
      RunIsConsecutive(c, n, i + 1);
      assert Continues(c, i + 1);
    }
  }

  // ---------------------------------------------------------------- velocity

  /** No two successive chunks of the history were read faster than m. */
  ghost predicate NoFasterThan(c: seq<Read>, m: real) {
    forall i | 0 < i < |c| && Follows(c[i - 1], c[i]) :: Rate(c[i - 1], c[i]) <= m
  }

  lemma NoFasterBefore(c: seq<Read>, r: Read, m: real)
    requires NoFasterThan(c + [r], m)
    ensures NoFasterThan(c, m)
    ensures c != [] && Follows(c[|c| - 1], r) ==> Rate(c[|c| - 1], r) <= m
  {
    var d := c + [r];
    forall i | 0 < i < |c| && Follows(c[i - 1], c[i]) ensures Rate(c[i - 1], c[i]) <= m {
      assert d[i - 1] == c[i - 1] && d[i] == c[i];
    }
    if c != [] { assert d[|c| - 1] == c[|c| - 1] && d[|c|] == r; }
  }

  lemma SmoothBounds(s: ReadState, r: Read, m: real)
    requires 0.0 <= s.velocityEWMA <= m
    requires Follows(LastRead(s), r) ==> Rate(LastRead(s), r) <= m
    ensures 0.0 <= Next(Some(s), r).velocityEWMA <= m
  {
  }

  /** The smoothed velocity never exceeds the largest instantaneous one, and is never negative. */
  lemma {:induction false} VelocityBounds(h: seq<Read>, m: real)
    requires h != [] && m >= 0.0 && NoFasterThan(Collapsed(h), m)
    ensures StateAfter(h).Some? && 0.0 <= StateAfter(h).value.velocityEWMA <= m
  {
    var t, r := h[..|h| - 1], h[|h| - 1];
    if t != [] {
      StreakIsTheRun(t);
      var c := Collapsed(t);
      if c[|c| - 1].chunk != r.chunk { NoFasterBefore(c, r, m); }
      VelocityBounds(t, m);
      if c[|c| - 1].chunk != r.chunk { SmoothBounds(StateAfter(t).value, r, m); }
    }
  }

  lemma ArmsByState(cfg: Config, h: seq<Read>, s: ReadState)
    requires h != [] && StateAfter(h[..|h| - 1]).Some? && StateAfter(h) == Some(s)
    requires StateAfter(h[..|h| - 1]).value.lastChunkIndex != h[|h| - 1].chunk
    ensures Arms(cfg, h) <==> s.streakLen >= cfg.streakThreshold && s.velocityEWMA >= cfg.velocityThreshold
  {
  }

  lemma ArmsState(cfg: Config, h: seq<Read>)
    requires Arms(cfg, h)
    ensures h != [] && StateAfter(h).Some?
    ensures StateAfter(h).value.streakLen >= cfg.streakThreshold
    ensures StateAfter(h).value.velocityEWMA >= cfg.velocityThreshold
  {
  }

  /** A prefetch means: the last streakThreshold chunks, repeats collapsed, were consecutive and
      ended with this one; and some two successive chunks were read at the threshold rate. */
  lemma ArmsMeans(cfg: Config, h: seq<Read>)
    requires Arms(cfg, h)
    ensures Collapsed(h) != [] && StateAfter(h).Some?
    ensures var n := StateAfter(h).value.streakLen;
            && cfg.streakThreshold <= n <= |Collapsed(h)|
            && EndsConsecutively(Collapsed(h), n, h[|h| - 1].chunk)
    ensures cfg.velocityThreshold > 0.0 ==> SomeRate(Collapsed(h), cfg.velocityThreshold)
  {
    ArmsState(cfg, h);
    StreakIsTheRun(h);
    RunEndsConsecutively(Collapsed(h), StateAfter(h).value.streakLen, h[|h| - 1].chunk);
    if cfg.velocityThreshold > 0.0 { SomeRateReaches(h, cfg.velocityThreshold); }
  }

  lemma RunEndsConsecutively(c: seq<Read>, n: nat, last: uint64)
    requires IsTailRun(c, n) && last == c[|c| - 1].chunk
    ensures EndsConsecutively(c, n, last)
  {
    forall i | |c| - n <= i < |c| ensures (c[i].chunk + (|c| - 1 - i)) % TWO_64 == last {
      RunIsConsecutive(c, n, i);
    }
  }

  ghost predicate SomeRate(c: seq<Read>, v: real) {
    exists i | 0 < i < |c| && Follows(c[i - 1], c[i]) :: Rate(c[i - 1], c[i]) >= v
  }

  /** The fastest rate below a bound that all rates are below. */
  lemma {:induction false} Fastest(c: seq<Read>, bound: real) returns (m: real)
    requires bound > 0.0
    requires forall i | 0 < i < |c| && Follows(c[i - 1], c[i]) :: Rate(c[i - 1], c[i]) < bound
    ensures 0.0 <= m < bound && NoFasterThan(c, m)
    decreases |c|
  {
    m := 0.0;
    if |c| > 1 {
      var t := c[..|c| - 1];
      forall i | 0 < i < |t| && Follows(t[i - 1], t[i]) ensures Rate(t[i - 1], t[i]) < bound {
        assert t[i - 1] == c[i - 1] && t[i] == c[i];
      }
      m := Fastest(t, bound);
      var n := |c| - 1;
      forall i | 0 < i < n && Follows(c[i - 1], c[i]) ensures Rate(c[i - 1], c[i]) <= m {
        assert t[i - 1] == c[i - 1] && t[i] == c[i];
      }
      if Follows(c[n - 1], c[n]) && Rate(c[n - 1], c[n]) > m { m := Rate(c[n - 1], c[n]); }
    }
  }

  lemma SomeRateReaches(h: seq<Read>, v: real)
    requires h != [] && v > 0.0 && StateAfter(h).Some? && StateAfter(h).value.velocityEWMA >= v
    ensures SomeRate(Collapsed(h), v)
  {
    var c := Collapsed(h);
    if !SomeRate(c, v) {
      var m := Fastest(c, v);
      VelocityBounds(h, m);
    }
  }

  // ---------------------------------------------------------------- the velocity, in closed form

  /** How many of the reads i .. j - 1 continue the one before them. */
  function Continued(c: seq<Read>, i: nat, j: nat): (n: nat)
    requires 0 < i <= j <= |c|
    ensures n <= j - i
  {
    if j == i then 0 else Continued(c, i, j - 1) + if Continues(c, j - 1) then 1 else 0
  }

  function Pow(x: real, n: nat): (p: real)
    ensures 0.0 < x <= 1.0 ==> 0.0 < p <= 1.0
  {
    if n == 0 then 1.0
    else
      var p := Pow(x, n - 1);
      assert 0.0 < x <= 1.0 ==> x * p <= p;
      x * p
  }

  /** What read i adds to the velocity when it comes: its rate, in full if it is the first that
      continues and else 0.3 of it. */
  function Fresh(c: seq<Read>, i: nat): real
    requires 0 < i < |c|
  {
    if !Continues(c, i) then 0.0
    else (if Continued(c, 1, i) == 0 then 1.0 else 0.3) * (1.0 / (c[i].time - c[i - 1].time))
  }

  /** What is left of a rate after p reads that continued and q that did not. */
  function Aged(rate: real, p: nat, q: nat): real {
    rate * Pow(0.7, p) * Pow(0.5, q)
  }

  /** What is left of what read i added when n reads are over. */
  function Share(c: seq<Read>, i: nat, n: nat): real
    requires 0 < i < n <= |c|
  {
    var later := Continued(c, i + 1, n);
    Aged(Fresh(c, i), later, n - 1 - i - later)
  }

  /** The shares of the reads before m, when n reads are over. */
  function Shares(c: seq<Read>, m: nat, n: nat): real
    requires 0 < m <= n <= |c|
  {
    if m == 1 then 0.0 else Shares(c, m - 1, n) + Share(c, m - 1, n)
  }

  function Velocity(c: seq<Read>): real
    requires c != []
  {
    Shares(c, |c|, |c|)
  }

  lemma ShareAges(c: seq<Read>, i: nat, n: nat)
    requires 0 < i < n < |c|
    ensures Share(c, i, n + 1) == (if Continues(c, n) then 0.7 else 0.5) * Share(c, i, n)
  {
    var later := Continued(c, i + 1, n);
    AgedMore(Fresh(c, i), later, n - 1 - i - later);
  }

  lemma AgedMore(rate: real, p: nat, q: nat)
    ensures Aged(rate, p + 1, q) == 0.7 * Aged(rate, p, q)
    ensures Aged(rate, p, q + 1) == 0.5 * Aged(rate, p, q)
  {
    Regroup(rate, 0.7, Pow(0.7, p), Pow(0.5, q));
    Regroup(rate, 0.5, Pow(0.7, p), Pow(0.5, q));
  }

  lemma Regroup(f: real, k: real, x: real, y: real)
    ensures f * (k * x) * y == k * (f * x * y) == f * x * (k * y)
  {
  }

  lemma {:induction false} SharesAge(c: seq<Read>, m: nat, n: nat)
    requires 0 < m <= n < |c|
    ensures Shares(c, m, n + 1) == (if Continues(c, n) then 0.7 else 0.5) * Shares(c, m, n)
  {
    if m > 1 {
      SharesAge(c, m - 1, n);
      ShareAges(c, m - 1, n);
    }
  }

  lemma {:induction false} SharesOfPrefix(c: seq<Read>, d: seq<Read>, m: nat, n: nat)
    requires 0 < m <= n <= |c| && c <= d
    ensures Shares(c, m, n) == Shares(d, m, n)
    ensures Continued(c, 1, m) == Continued(d, 1, m)
  {
    if m > 1 {
      SharesOfPrefix(c, d, m - 1, n);
      ContinuedPrefix(c, d, m, n);
    }
  }

  lemma {:induction false} ContinuedPrefix(c: seq<Read>, d: seq<Read>, i: nat, j: nat)
    requires 0 < i <= j <= |c| && c <= d
    ensures Continued(c, i, j) == Continued(d, i, j)
  {
    if i < j { ContinuedPrefix(c, d, i, j - 1); }
  }

  /** Nothing has continued so far, or the velocity is positive. */
  lemma {:induction false} SharesSign(c: seq<Read>, m: nat, n: nat)
    requires 0 < m <= n <= |c|
    ensures Shares(c, m, n) >= 0.0 && (Shares(c, m, n) == 0.0 <==> Continued(c, 1, m) == 0)
  {
    if m > 1 {
      SharesSign(c, m - 1, n);
      ShareSign(c, m - 1, n);
    }
  }

  lemma ShareSign(c: seq<Read>, i: nat, n: nat)
    requires 0 < i < n <= |c|
    ensures Share(c, i, n) >= 0.0 && (Share(c, i, n) > 0.0 <==> Continues(c, i))
  {
    var later := Continued(c, i + 1, n);
    AgedSign(Fresh(c, i), later, n - 1 - i - later);
  }

  lemma AgedSign(rate: real, p: nat, q: nat)
    requires rate >= 0.0
    ensures Aged(rate, p, q) >= 0.0 && (Aged(rate, p, q) > 0.0 <==> rate > 0.0)
  {
    ProductSign(rate, Pow(0.7, p), Pow(0.5, q));
  }

  lemma ProductSign(rate: real, x: real, y: real)
    requires rate >= 0.0 && x > 0.0 && y > 0.0
    ensures rate * x * y >= 0.0 && (rate * x * y > 0.0 <==> rate > 0.0)
  {
    if rate > 0.0 { assert rate * x > 0.0; }
  }

  lemma VelocitySnoc(c: seq<Read>, r: Read)
    requires c != []
    ensures var (d, v) := (c + [r], Velocity(c));
            Velocity(d) ==
            if !Continues(d, |c|) then 0.5 * v
            else if v == 0.0 then 1.0 / (r.time - c[|c| - 1].time)
            else 0.3 * (1.0 / (r.time - c[|c| - 1].time)) + 0.7 * v
  {
    var d, n := c + [r], |c|;
    SharesOfPrefix(c, d, n, n);
    SharesAge(d, n, n);
    SharesSign(d, n, n);
    assert Pow(0.7, 0) == Pow(0.5, 0) == 1.0 && Continued(d, n + 1, n + 1) == 0;
  }

  /** For every history the smoothed velocity is this weighted sum of the rates of the reads
      that continued the one before. */
  lemma {:induction false} VelocityIs(h: seq<Read>)
    requires h != []
    ensures Collapsed(h) != [] && StateAfter(h).Some?
    ensures StateAfter(h).value.velocityEWMA == Velocity(Collapsed(h))
  {
    StreakIsTheRun(h);
    var t, r := h[..|h| - 1], h[|h| - 1];
    if t == [] {
      assert Collapsed(h) == [r];
    } else {
      StreakIsTheRun(t);
      VelocityIs(t);
      VelocitySnoc(Collapsed(t), r);
    }
  }

  /** A prefetch starts with exactly those reads that are not a repeat, nor the first, end a run
      that is long enough, and bring the velocity to the threshold. */
  lemma ArmsIff(cfg: Config, h: seq<Read>)
    requires h != []
    ensures Collapsed(h) != []
    ensures Arms(cfg, h) <==>
            && |h| > 1 && h[|h| - 1].chunk != h[|h| - 2].chunk
            && (exists n | 0 <= n <= |Collapsed(h)| :: IsTailRun(Collapsed(h), n) && n >= cfg.streakThreshold)
            && Velocity(Collapsed(h)) >= cfg.velocityThreshold
  {
    StreakIsTheRun(h);
    VelocityIs(h);
    var n := StateAfter(h).value.streakLen;
    assert IsTailRun(Collapsed(h), n);
    forall m | 0 <= m <= |Collapsed(h)| && IsTailRun(Collapsed(h), m) ensures m == n {
      OneTailRun(Collapsed(h), m, n);
    }
    if |h| > 1 { StreakIsTheRun(h[..|h| - 1]); }
  }

  lemma OneTailRun(c: seq<Read>, m: nat, n: nat)
    requires IsTailRun(c, m) && IsTailRun(c, n)
    ensures m == n
  {
  }

  // ---------------------------------------------------------------- seeks

  /** The reader jumps: to another chunk, and not to the next one later on. */
  predicate Breaks(before: Read, r: Read) {
    && r.chunk != before.chunk
    && !(r.chunk == (before.chunk + 1) % 0x1_0000_0000_0000_0000 && r.time > before.time)
  }

  lemma StateAfterJump(h: seq<Read>, r: Read, s: ReadState)
    requires StateAfter(h) == Some(s) && Breaks(LastRead(s), r)
    ensures StateAfter(h + [r]) == Some(ReadState(r.chunk, r.time, 1, 0.5 * s.velocityEWMA))
  {
    assert (h + [r])[..|h + [r]| - 1] == h;
  }

  /** Reads each of which is a jump from the one before. */
  predicate AllBreak(from: Read, later: seq<Read>)
    decreases |later|
  {
    later != [] ==>
      var n := |later| - 1;
      Breaks(if n == 0 then from else later[n - 1], later[n]) && AllBreak(from, later[..n])
  }

  /** v divided by 2^n. */
  function Halved(v: real, n: nat): real { v * Pow(0.5, n) }

  lemma HalvedOnceMore(v: real, n: nat)
    ensures Halved(v, 0) == v && Halved(v, n + 1) == 0.5 * Halved(v, n)
  {
    assert v * (0.5 * Pow(0.5, n)) == 0.5 * (v * Pow(0.5, n));
  }

  /** n jumps in a row divide the velocity by 2^n, whatever came before, and leave a streak of 1. */
  lemma {:induction false} JumpsHalve(h: seq<Read>, later: seq<Read>)
    requires StateAfter(h).Some? && AllBreak(LastRead(StateAfter(h).value), later)
    ensures StateAfter(h + later).Some?
    ensures var (s, s') := (StateAfter(h).value, StateAfter(h + later).value);
            && s'.velocityEWMA == Halved(s.velocityEWMA, |later|) && (later != [] ==> s'.streakLen == 1)
            && LastRead(s') == if later == [] then LastRead(s) else later[|later| - 1]
    decreases |later|
  {
    var v := StateAfter(h).value.velocityEWMA;
    if later == [] {
      assert h + later == h;
      HalvedOnceMore(v, 0);
    } else {
      var n := |later| - 1;
      JumpsHalve(h, later[..n]);
      assert h + later == (h + later[..n]) + [later[n]];
      StateAfterJump(h + later[..n], later[n], StateAfter(h + later[..n]).value);
      HalvedOnceMore(v, n);
    }
  }

  // ---------------------------------------------------------------- a steady reader

  /** The smoothed velocity after n more steps at rate r. */
  function Steady(v: real, r: real, n: nat): real {
    if n == 0 then v else Smooth(Steady(v, r, n - 1), r)
  }

  /** At a constant rate the error shrinks by 0.7 per chunk. */
  lemma {:induction false} SteadyClosedForm(v: real, r: real, n: nat)
    requires v > 0.0 && r > 0.0
    ensures Steady(v, r, n) - r == Pow(0.7, n) * (v - r) && Steady(v, r, n) > 0.0
  {
    if n > 0 {
      SteadyClosedForm(v, r, n - 1);
      assert 0.7 * Pow(0.7, n - 1) * (v - r) == 0.7 * (Pow(0.7, n - 1) * (v - r));
    }
  }

  /** Reads of the chunks after a given one, each dt seconds after the one before. */
  ghost predicate SteadyReads(from: Read, later: seq<Read>, dt: real)
    decreases |later|
  {
    later != [] ==>
      var n := |later| - 1;
      var before := if n == 0 then from else later[n - 1];
      later[n] == Read(Succ(before.chunk), before.time + dt) && SteadyReads(from, later[..n], dt)
  }

  /** They take the velocity through Steady and keep the streak. */
  lemma {:induction false} SteadyReadsAreSteady(h: seq<Read>, later: seq<Read>, dt: real)
    requires StateAfter(h).Some? && dt > 0.0 && SteadyReads(LastRead(StateAfter(h).value), later, dt)
    ensures StateAfter(h + later).Some?
    ensures var (s, s') := (StateAfter(h).value, StateAfter(h + later).value);
            && s'.velocityEWMA == Steady(s.velocityEWMA, 1.0 / dt, |later|)
            && s'.streakLen == s.streakLen + |later|
            && LastRead(s') == if later == [] then LastRead(s) else later[|later| - 1]
    decreases |later|
  {
    if later == [] {
      assert h + later == h;
    } else {
      var n := |later| - 1;
      SteadyReadsAreSteady(h, later[..n], dt);
      assert (h + later)[..|h + later| - 1] == h + later[..n];
      var s := StateAfter(h + later[..n]).value;
      assert later[n].time - s.lastReadAt == dt;
    }
  }

  /** Bernoulli's bound: 0.7^n <= 1 / (1 + 3n/7). */
  lemma {:induction false} PowerBound(n: nat)
    ensures Pow(0.7, n) * (7.0 + 3.0 * n as real) <= 7.0
  {
    if n > 0 {
      PowerBound(n - 1);
      var x, p := (n - 1) as real, Pow(0.7, n - 1);
      assert 0.7 * p * (7.0 + 3.0 * (x + 1.0)) == p * (7.0 + 3.0 * x) - p * (0.9 * x);
      assert p * (0.9 * x) >= 0.0;
    }
  }

  /** n chunks at rate r are enough to reach the threshold from any velocity. */
  predicate Enough(n: nat, r: real, threshold: real) {
    0.0 <= threshold < r && n as real * (3.0 * (r - threshold)) >= 7.0 * threshold
  }

  /** A steady reader faster than the threshold reaches it within 7v / 3(r - v) chunks. */
  lemma FastReaderArms(v0: real, r: real, threshold: real, n: nat)
    requires v0 >= 0.0 && n > 0 && Enough(n, r, threshold)
    ensures Steady(v0, r, n) >= threshold
  {
    if v0 == 0.0 {
      AfterFirst(r, n);
    } else {
      SteadyClosedForm(v0, r, n);
      PowerBound(n);
      var p, x := Pow(0.7, n), n as real;
      assert p * (v0 - r) >= -(p * r) by { assert p * (v0 - r) == p * v0 - p * r; assert p * v0 >= 0.0; }
      EnoughSteps(p, x, r, threshold);
      assert Steady(v0, r, n) == r + p * (v0 - r);
    }
  }

  lemma EnoughSteps(p: real, x: real, r: real, threshold: real)
    requires 0.0 < p && 0.0 <= x && 0.0 <= threshold < r
    requires x * (3.0 * (r - threshold)) >= 7.0 * threshold && p * (7.0 + 3.0 * x) <= 7.0
    ensures p * r <= r - threshold
  {
    var d := r - threshold;
    assert 7.0 * r == 7.0 * d + 7.0 * threshold;
    assert x * (3.0 * d) == 3.0 * x * d;
    assert (7.0 + 3.0 * x) * d == 7.0 * d + 3.0 * x * d;
    assert 7.0 * r <= (7.0 + 3.0 * x) * d;
    assert p * (7.0 * r) <= p * ((7.0 + 3.0 * x) * d);
    assert p * ((7.0 + 3.0 * x) * d) == (p * (7.0 + 3.0 * x)) * d;
    assert (p * (7.0 + 3.0 * x)) * d <= 7.0 * d;
    assert p * (7.0 * r) == 7.0 * (p * r);
  }

  lemma {:induction false} AfterFirst(r: real, n: nat)
    requires r > 0.0 && n > 0
    ensures Steady(0.0, r, n) == r
  {
    if n > 1 { AfterFirst(r, n - 1); } else { assert Steady(0.0, r, 0) == 0.0; }
  }

  lemma LastSteadyRead(h: seq<Read>, later: seq<Read>, dt: real)
    requires StateAfter(h).Some? && dt > 0.0 && SteadyReads(LastRead(StateAfter(h).value), later, dt) && later != []
    ensures var all := h + later;
            StateAfter(all[..|all| - 1]).Some?
            && StateAfter(all[..|all| - 1]).value.lastChunkIndex != all[|all| - 1].chunk
  {
    var n, all := |later| - 1, h + later;
    SteadyReadsAreSteady(h, later[..n], dt);
    assert all[..|all| - 1] == h + later[..n] && all[|all| - 1] == later[n];
  }

  /** ... and so, with its streak long enough too, starts a prefetch with every further chunk. */
  lemma SteadyReaderArms(cfg: Config, h: seq<Read>, later: seq<Read>, dt: real)
    requires StateAfter(h).Some? && dt > 0.0 && SteadyReads(LastRead(StateAfter(h).value), later, dt) && later != []
    requires StateAfter(h).value.velocityEWMA >= 0.0 && Enough(|later|, 1.0 / dt, cfg.velocityThreshold)
    requires StateAfter(h).value.streakLen + |later| >= cfg.streakThreshold
    ensures Arms(cfg, h + later)
  {
    LastSteadyRead(h, later, dt);
    SteadyReadsAreSteady(h, later, dt);
    FastReaderArms(StateAfter(h).value.velocityEWMA, 1.0 / dt, cfg.velocityThreshold, |later|);
  }

  /** Exactly which steady readers ever reach the threshold from below it. */
  lemma ReachesIff(v0: real, r: real, threshold: real)
    requires 0.0 <= v0 < threshold && r > 0.0
    ensures (exists n: nat :: Steady(v0, r, n) >= threshold) <==> r > threshold || (r == threshold && v0 == 0.0)
  {
    if r > threshold {
      var n := Steps(7.0 * threshold, 3.0 * (r - threshold));
      FastReaderArms(v0, r, threshold, n);
    } else if v0 == 0.0 {
      AfterFirst(r, 1);
      assert Steady(v0, r, 1) == r;
      forall n: nat | r < threshold ensures Steady(v0, r, n) < threshold {
        if n > 0 { AfterFirst(r, n); }
      }
    } else {
      forall n: nat ensures Steady(v0, r, n) < threshold {
        SteadyClosedForm(v0, r, n);
        StaysBelow(Pow(0.7, n), v0, r, threshold);
      }
    }
  }

  lemma StaysBelow(p: real, v0: real, r: real, threshold: real)
    requires 0.0 < p <= 1.0 && v0 < threshold && r <= threshold
    ensures r + p * (v0 - r) < threshold
  {
    var a, b := threshold - v0, threshold - r;
    assert v0 - r == b - a;
    assert p * (b - a) == p * b - p * a;
    assert p * a > 0.0;
    assert (1.0 - p) * b >= 0.0;
    assert (1.0 - p) * b == b - p * b;
    calc {
      r + p * (v0 - r);
      r + p * b - p * a;
    <
      r + p * b;
    <=
      r + b;
      threshold;
    }
  }

  /** A number of steps n > 0 with n * d >= x. */
  function Steps(x: real, d: real): (n: nat)
    requires x >= 0.0 && d > 0.0
    ensures n > 0 && n as real * d >= x
  {
    var q := x / d;
    assert q >= 0.0;
    var n := q.Floor + 1;
    assert n as real * d >= q * d;
    n
  }

  // ---------------------------------------------------------------- a reader who jumps

  lemma SteadyFrom(v: real, rate: real, n: nat)
    requires v >= 0.0 && rate > 0.0 && n > 0
    ensures Steady(v, rate, n) == if v == 0.0 then rate else rate + Pow(0.7, n) * (v - rate)
  {
    if v == 0.0 { AfterFirst(rate, n); } else { SteadyClosedForm(v, rate, n); }
  }

  /** The velocity n chunks after a jump that was made at velocity v. */
  function Recovering(v: real, rate: real, n: nat): real {
    if v == 0.0 then rate else rate + Pow(0.7, n) * (v / 2.0 - rate)
  }

  lemma SteadyIsRecovering(v: real, rate: real, n: nat)
    requires v >= 0.0 && rate > 0.0 && n > 0
    ensures Steady(0.5 * v, rate, n) == Recovering(v, rate, n)
  {
    SteadyFrom(0.5 * v, rate, n);
  }

  lemma AfterJump(h: seq<Read>, r: Read, later: seq<Read>, dt: real, v: real) returns (all: seq<Read>, s: ReadState)
    requires StateAfter(h).Some? && StateAfter(h).value.velocityEWMA == v >= 0.0
    requires Breaks(LastRead(StateAfter(h).value), r)
    requires dt > 0.0 && SteadyReads(r, later, dt) && later != []
    ensures all == h + [r] + later && all != [] && StateAfter(all) == Some(s)
    ensures s.streakLen == |later| + 1 && s.velocityEWMA == Recovering(v, 1.0 / dt, |later|)
    ensures var before := StateAfter(all[..|all| - 1]);
            before.Some? && before.value.lastChunkIndex != all[|all| - 1].chunk
  {
    StateAfterJump(h, r, StateAfter(h).value);
    SteadyReadsAreSteady(h + [r], later, dt);
    LastSteadyRead(h + [r], later, dt);
    SteadyIsRecovering(v, 1.0 / dt, |later|);
    all := h + [r] + later;
    s := StateAfter(all).value;
  }

  /** Exactly when a reader who jumps and then reads on steadily starts a prefetch again: after
      n more chunks at one rate its velocity is rate + 0.7^n (v / 2 - rate), if it was v > 0. */
  lemma JumpedReaderArmsIff(cfg: Config, h: seq<Read>, r: Read, later: seq<Read>, dt: real, v: real)
    requires StateAfter(h).Some? && StateAfter(h).value.velocityEWMA == v >= 0.0
    requires Breaks(LastRead(StateAfter(h).value), r)
    requires dt > 0.0 && SteadyReads(r, later, dt) && later != []
    ensures Arms(cfg, h + [r] + later) <==>
            |later| + 1 >= cfg.streakThreshold && Recovering(v, 1.0 / dt, |later|) >= cfg.velocityThreshold
  {
    var all, s := AfterJump(h, r, later, dt, v);
    ArmsByState(cfg, all, s);
  }

  lemma FirstTwoReads()
    ensures StateAfter([Read(0, 0.0), Read(1, 1.0)]) == Some(ReadState(1, 1.0, 2, 1.0))
  {
    var h := [Read(0, 0.0), Read(1, 1.0)];
    assert h[..1] == [h[0]] && h[..1][..0] == [];
    assert StateAfter(h[..1]) == Some(ReadState(0, 0.0, 1, 0.0));
  }

  lemma TwoSlowReads()
    ensures SteadyReads(Read(10, 2.0), [Read(11, 6.0), Read(12, 10.0)], 4.0)
  {
    var later := [Read(11, 6.0), Read(12, 10.0)];
    assert later[..1] == [later[0]] && later[..1][..0] == [];
  }

  lemma PowTwo(x: real)
    ensures Pow(x, 2) == x * x
  {
    assert Pow(x, 1) == x * Pow(x, 0) == x;
  }

  lemma RecoveringAfterTwo()
    ensures Recovering(1.0, 0.25, 2) == 0.3725
  {
    PowTwo(0.7);
  }

  /** For instance, with the thresholds 3 and 0.5: chunks 0 and 1 a second apart, a jump to 10
      a second later, then 11 and 12 four seconds apart. The velocity has fallen to 0.3725. */
  lemma JumpDelaysPrefetch()
    ensures !Arms(Config(3, 0.5), [Read(0, 0.0), Read(1, 1.0)] + [Read(10, 2.0)] + [Read(11, 6.0), Read(12, 10.0)])
  {
    FirstTwoReads();
    TwoSlowReads();
    RecoveringAfterTwo();
    JumpedReaderArmsIff(Config(3, 0.5), [Read(0, 0.0), Read(1, 1.0)], Read(10, 2.0),
                        [Read(11, 6.0), Read(12, 10.0)], 4.0, 1.0);
  }
}
