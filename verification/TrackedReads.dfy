/** What the predictor sees of a reader whose ranges the handler serves, whatever ranges of
    other objects are served in between. */
module TrackedReads {
  import opened Basics
  import opened Fnv
  import opened Predictor
  import opened ContiguousReader
  import opened Sequential
  import opened SequentialRequests
  import opened Serving

  // A range that was served: the bytes start .. end of an object.
  datatype Range = Range(key: ObjectKey, start: nat, end: nat)

  predicate Proper(g: Range) {
    g.start <= g.end && ChunkOf(g.end) < TWO_64
  }

  /** The log of Tracker.Record after the range was served. */
  function Logged(log: seq<ChunkKey>, g: Range): seq<ChunkKey>
    requires Proper(g)
  {
    var r := RangeRequest(g.key, g.start, g.end);
    Recorded(log, r, r.n)
  }

  /** That is what a successful ServeRange does to it. */
  lemma AnsweredIsLogged(p: Proxy, q: Proxy, w: World, response: Response, g: Range, x: Outside,
                         was: seq<ChunkKey>, log: seq<ChunkKey>)
    requires g.key in w.objects && g.start <= g.end < |w.objects[g.key]| <= MAX_INT64 && response.PartialContent?
    requires Answered(p, q, w, response, g.key, g.start, g.end, x, was, log)
    ensures Proper(g) && log == Logged(was, g)
  {
    RangeIsLegal(w.objects, g.key, g.start, g.end);
  }

  function LoggedAll(log: seq<ChunkKey>, served: seq<Range>): seq<ChunkKey>
    requires forall g | g in served :: Proper(g)
  {
    if served == [] then log else Logged(LoggedAll(log, served[..|served| - 1]), served[|served| - 1])
  }

  /** The chunks of one object that the predictor was told of, in order. */
  function ChunksOf(log: seq<ChunkKey>, key: ObjectKey): seq<nat> {
    if log == [] then []
    else
      var t, k := ChunksOf(log[..|log| - 1], key), log[|log| - 1];
      if k.objectKey == key then t + [k.chunkIndex] else t
  }

  /** The ranges of this object are the pieces between the cuts, in order. */
  predicate ReadsThrough(served: seq<Range>, key: ObjectKey, cuts: seq<nat>) {
    if served == [] then |cuts| == 1
    else
      var t, g, n := served[..|served| - 1], served[|served| - 1], |cuts| - 1;
      if g.key != key then ReadsThrough(t, key, cuts)
      else n > 0 && cuts[n - 1] == g.start && cuts[n] == g.end + 1 && ReadsThrough(t, key, cuts[..n])
  }

  lemma ChunksSnocked(log: seq<ChunkKey>, k: ChunkKey, key: ObjectKey)
    ensures ChunksOf(log + [k], key) == ChunksOf(log, key) + if k.objectKey == key then [k.chunkIndex] else []
  {
    assert (log + [k])[..|log|] == log;
  }

  lemma {:induction false} RecordedChunks(log: seq<ChunkKey>, r: Request, n: nat, key: ObjectKey)
    requires r.first + n <= TWO_64
    ensures r.key != key || n == 0 ==> ChunksOf(Recorded(log, r, n), key) == ChunksOf(log, key)
    ensures r.key == key && n > 0 ==>
              ChunksOf(Recorded(log, r, n), key) == ChunksOf(log, key) + Up(r.first, r.first + n - 1)
  {
    if n > 0 {
      RecordedChunks(log, r, n - 1, key);
      ChunksSnocked(Recorded(log, r, n - 1), Nth(r, n - 1), key);
      UpSnoc(r.first, n - 1);
    }
  }

  lemma UpSnoc(first: nat, n: nat)
    ensures n == 0 ==> Up(first, first) == [first]
    ensures n > 0 ==> Up(first, first + n) == Up(first, first + n - 1) + [first + n]
  {
  }

  lemma {:induction false} TouchedPrefix(cuts: seq<nat>, m: nat, n: nat)
    requires n < m <= |cuts|
    ensures Touched(cuts[..m], n) == Touched(cuts, n)
  {
    if n > 0 { TouchedPrefix(cuts, m, n - 1); }
  }

  lemma LoggedChunks(log: seq<ChunkKey>, g: Range, key: ObjectKey)
    requires Proper(g)
    ensures g.key != key ==> ChunksOf(Logged(log, g), key) == ChunksOf(log, key)
    ensures g.key == key ==>
              && ChunkOf(g.start) <= ChunkOf(g.end)
              && ChunksOf(Logged(log, g), key) == ChunksOf(log, key) + Up(ChunkOf(g.start), ChunkOf(g.end))
  {
    var r := RangeRequest(g.key, g.start, g.end);
    RecordedChunks(log, r, r.n, key);
  }

  lemma TouchedLast(cuts: seq<nat>, n: nat)
    requires 0 < n == |cuts| - 1 && cuts[n - 1] < cuts[n]
    ensures ChunkOf(cuts[n - 1]) <= ChunkOf(cuts[n] - 1)
    ensures Touched(cuts, n) == Touched(cuts[..n], n - 1) + Up(ChunkOf(cuts[n - 1]), ChunkOf(cuts[n] - 1))
  {
    ChunkOfMonotone(cuts[n - 1], cuts[n] - 1);
    TouchedPrefix(cuts, n, n - 1);
  }

  /** One more range of the object, or of another. */
  lemma OneMoreRange(log: seq<ChunkKey>, g: Range, key: ObjectKey, cuts: seq<nat>)
    requires Proper(g) && |cuts| > 0
    requires g.key != key ==> ChunksOf(log, key) == Touched(cuts, |cuts| - 1)
    requires g.key == key ==>
               && |cuts| > 1 && cuts[|cuts| - 2] == g.start && cuts[|cuts| - 1] == g.end + 1
               && ChunksOf(log, key) == Touched(cuts[..|cuts| - 1], |cuts| - 2)
    ensures ChunksOf(Logged(log, g), key) == Touched(cuts, |cuts| - 1)
  {
    LoggedChunks(log, g, key);
    if g.key == key { TouchedLast(cuts, |cuts| - 1); }
  }

  /** The chunks the predictor was told of are those the pieces touch. */
  lemma {:induction false} TrackedIsTouched(served: seq<Range>, key: ObjectKey, cuts: seq<nat>)
    requires (forall g | g in served :: Proper(g)) && ReadsThrough(served, key, cuts)
    ensures |cuts| > 0 && ChunksOf(LoggedAll([], served), key) == Touched(cuts, |cuts| - 1)
    decreases |served|
  {
    if served != [] {
      var t, g, n := served[..|served| - 1], served[|served| - 1], |cuts| - 1;
      assert g in served && forall h | h in t :: h in served;
      TrackedIsTouched(t, key, if g.key == key then cuts[..n] else cuts);
      OneMoreRange(LoggedAll([], t), g, key, cuts);
    }
  }

  /** So a reader whose back-to-back ranges the handler served, in pieces of any sizes and with
      any ranges of other objects in between, has a streak over every chunk it touched. */
  lemma ServedReaderKeepsStreak(served: seq<Range>, key: ObjectKey, cuts: seq<nat>, h: seq<Read>)
    requires (forall g | g in served :: Proper(g)) && ReadsThrough(served, key, cuts) && |cuts| > 1
    requires Reads(h, ChunksOf(LoggedAll([], served), key))
    ensures cuts[0] < cuts[|cuts| - 1] && StateAfter(h).Some?
    ensures StateAfter(h).value.streakLen == ChunkOf(cuts[|cuts| - 1] - 1) - ChunkOf(cuts[0]) + 1
  {
    TrackedIsTouched(served, key, cuts);
    PiecesAreCuts(served, key, cuts);
    ContiguousReaderKeepsStreak(cuts, h);
  }

  lemma {:induction false} PiecesAreCuts(served: seq<Range>, key: ObjectKey, cuts: seq<nat>)
    requires (forall g | g in served :: Proper(g)) && ReadsThrough(served, key, cuts)
    ensures Cuts(cuts)
    decreases |served|
  {
    if served != [] {
      var t, g, n := served[..|served| - 1], served[|served| - 1], |cuts| - 1;
      assert g in served && forall h | h in t :: h in served;
      if g.key != key {
        PiecesAreCuts(t, key, cuts);
      } else {
        PiecesAreCuts(t, key, cuts[..n]);
        forall i | 0 < i < |cuts| ensures cuts[i - 1] < cuts[i] {
          if i < n { assert cuts[..n][i - 1] < cuts[..n][i]; }
        }
      }
    }
  }
}
