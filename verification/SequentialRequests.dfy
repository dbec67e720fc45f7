/** When requests, one after the other, fetch each chunk at most once, and when they do not. */
module SequentialRequests {
  import opened Basics
  import opened Fnv
  import opened LruSpec
  import opened HotSpec
  import opened Sequential

  lemma RealPart(w: World, events: seq<Event>, n: nat)
    requires Real(w, events) && n <= |events|
    ensures Real(w, events[..n])
  {
    forall a | a in events[..n] ensures HasChunk(w.objects, a.k) { assert a in events; }
  }

  lemma RealConcat(w: World, a: seq<Event>, b: seq<Event>)
    requires Real(w, a) && Real(w, b)
    ensures Real(w, a + b)
  {
  }

  // ---------------------------------------------------------------- calm runs

  predicate NothingPending(w: World, events: seq<Event>)
    requires Real(w, events)
  {
    Run(w, events).pending == multiset{}
  }

  /** Event i's chunk shares its shard with no chunk asked for in events s .. i - 1. */
  predicate AloneSince(events: seq<Event>, s: nat, i: nat)
    requires s <= i < |events|
  {
    forall j | s <= j < i && events[j].Ask? :: ShardOf(events[j].k) != ShardOf(events[i].k)
  }

  /** At event s no write was pending, and since then nothing touched the shard of event i. */
  ghost predicate CalmSince(w: World, events: seq<Event>, i: nat, s: nat)
    requires Real(w, events) && i < |events|
  {
    s <= i && (RealPart(w, events, s); NothingPending(w, events[..s])) && AloneSince(events, s, i)
  }

  ghost predicate CalmAt(w: World, events: seq<Event>, i: nat)
    requires Real(w, events) && i < |events|
  {
    events[i].Ask? ==> events[i].readable && exists s: nat :: CalmSince(w, events, i, s)
  }

  ghost predicate Calm(w: World, events: seq<Event>)
    requires Real(w, events)
  {
    forall i | 0 <= i < |events| :: CalmAt(w, events, i)
  }

  /** In memory or on the disk. */
  predicate Kept(p: Proxy, k: ChunkKey) {
    Resident(p.hot, k) || k in p.cold
  }

  lemma KeptByAsk(w: World, p: Proxy, a: Event, k: ChunkKey)
    requires Good(w.objects, p) && a.Ask? && HasChunk(w.objects, a.k) && ShardOf(a.k) != ShardOf(k) && Kept(p, k)
    ensures Kept(Apply(p, w, a), k)
  {
    ResolvedIsDemand(w, p, a.k, a.readable);
    DemandResident(p.hot, w.capacity, EntryOf(w.objects, a.k), k);
  }

  lemma KeptStep(w: World, events: seq<Event>, a: Event, k: ChunkKey)
    requires Real(w, events + [a]) && Real(w, events) && Kept(Run(w, events), k)
    requires a.Ask? ==> ShardOf(a.k) != ShardOf(k)
    ensures Kept(Run(w, events + [a]), k)
  {
    RunSnoc(w, events, a);
    if a.Ask? {
      RunIsLru(w, events);
      KeptByAsk(w, Run(w, events), a, k);
    }
  }

  /** What was kept stays kept while its shard is left alone. */
  lemma {:induction false} KeptSince(w: World, events: seq<Event>, later: seq<Event>, k: ChunkKey)
    requires Real(w, events) && Real(w, events + later) && Kept(Run(w, events), k)
    requires forall j | 0 <= j < |later| && later[j].Ask? :: ShardOf(later[j].k) != ShardOf(k)
    ensures Kept(Run(w, events + later), k)
    decreases |later|
  {
    if later == [] {
      assert events + later == events;
    } else {
      var t, a := later[..|later| - 1], later[|later| - 1];
      assert events + later == (events + t) + [a];
      RunSnoc(w, events + t, a);
      KeptSince(w, events, t, k);
      KeptStep(w, events + t, a, k);
    }
  }

  lemma AskedEarlier(events: seq<Event>, s: nat, i: nat)
    requires s <= i < |events| && events[i].Ask? && AloneSince(events, s, i) && Asked(events[..i], events[i].k)
    ensures Asked(events[..s], events[i].k)
  {
    var k := events[i].k;
    var j :| 0 <= j < i && events[..i][j].Ask? && events[..i][j].k == k;
    assert events[j] == events[..s][j];
  }

  lemma CalmIsKept(w: World, events: seq<Event>, i: nat, s: nat)
    requires Real(w, events) && i < |events| && events[i].Ask? && CalmSince(w, events, i, s)
    requires Asked(events[..i], events[i].k)
    ensures Real(w, events[..i]) && Kept(Run(w, events[..i]), events[i].k)
  {
    RealPart(w, events, s);
    RealPart(w, events, i);
    AskedEarlier(events, s, i);
    AskedIsSomewhere(w, events[..s], events[i].k);
    assert events[..i] == events[..s] + events[s..i];
    KeptSince(w, events[..s], events[s..i], events[i].k);
  }

  lemma SinceSame(w: World, events: seq<Event>, all: seq<Event>, i: nat, s: nat)
    requires Real(w, events) && Real(w, all) && events <= all && i < |events|
    ensures CalmSince(w, all, i, s) <==> CalmSince(w, events, i, s)
  {
    if s <= i {
      assert all[..s] == events[..s];
      assert forall j | 0 <= j <= i :: all[j] == events[j];
    }
  }

  /** Whether event i is calm depends on the events up to it. */
  lemma CalmSame(w: World, events: seq<Event>, all: seq<Event>, i: nat)
    requires Real(w, events) && Real(w, all) && events <= all && i < |events|
    ensures CalmAt(w, all, i) <==> CalmAt(w, events, i)
  {
    forall s: nat ensures CalmSince(w, all, i, s) <==> CalmSince(w, events, i, s) {
      SinceSame(w, events, all, i, s);
    }
    assert all[i] == events[i];
  }

  /** If, whenever a chunk is asked for, nothing else of its shard was asked for since some
      moment at which no write was pending, then no chunk is fetched twice, at any capacity. */
  lemma {:induction false} CalmRunsFetchOnce(w: World, events: seq<Event>)
    requires Real(w, events) && Calm(w, events)
    ensures FetchedOnce(Run(w, events))
  {
    if events != [] {
      var t, a := events[..|events| - 1], events[|events| - 1];
      assert events == t + [a];
      RunSnoc(w, t, a);
      forall i | 0 <= i < |t| ensures CalmAt(w, t, i) { CalmSame(w, t, events, i); }
      CalmRunsFetchOnce(w, t);
      assert CalmAt(w, events, |t|);
      if a.Ask? { CalmAskFetchesOnce(w, t, a); }
    }
  }

  lemma CalmAskFetchesOnce(w: World, events: seq<Event>, a: Event)
    requires Real(w, events) && Real(w, events + [a]) && a.Ask?
    requires FetchedOnce(Run(w, events))
    requires CalmAt(w, events + [a], |events|)
    ensures FetchedOnce(Apply(Run(w, events), w, a))
  {
    var all, p := events + [a], Run(w, events);
    assert all[..|events|] == events && all[|events|] == a;
    var s: nat :| CalmSince(w, all, |events|, s);
    NothingLost(w, events, a.k);
    if Asked(events, a.k) { CalmIsKept(w, all, |events|, s); }
    if TierOf(p, a.k, a.readable) == Backend { OnceSnoc(p, Apply(p, w, a), a.k); }
  }

  /** If all pending writes have completed whenever a chunk is asked for, and the disk can be
      read, then no chunk is fetched twice, whatever is asked for and however small the memory. */
  lemma DrainedBetweenChunksFetchesOnce(w: World, events: seq<Event>)
    requires Real(w, events)
    requires forall i | 0 <= i < |events| && events[i].Ask? ::
               events[i].readable && Real(w, events[..i]) && NothingPending(w, events[..i])
    ensures FetchedOnce(Run(w, events))
  {
    forall i | 0 <= i < |events| ensures CalmAt(w, events, i) {
      if events[i].Ask? { assert CalmSince(w, events, i, i); }
    }
    CalmRunsFetchOnce(w, events);
  }

  // ---------------------------------------------------------------- requests

  /** One range request: n chunks of an object from first on. */
  datatype Request = Request(key: ObjectKey, first: nat, n: nat)

  predicate Legal(objects: Store, r: Request) {
    && r.key in objects && |objects[r.key]| <= MAX_INT64
    && (r.n > 0 ==> Base(r.first + r.n - 1) < |objects[r.key]|)
  }

  /** Its chunk number i. */
  function Nth(r: Request, i: nat): ChunkKey
    requires r.first + i < TWO_64
  {
    ChunkKey(r.key, r.first + i)
  }

  /** The first n chunks a request asks for, in order; those in bad cannot be read from disk. */
  function Asks(r: Request, n: nat, bad: set<ChunkKey>): (events: seq<Event>)
    requires r.first + n <= TWO_64
    ensures |events| == n
    ensures forall i | 0 <= i < n :: events[i] == Ask(Nth(r, i), Nth(r, i) !in bad)
  {
    if n == 0 then [] else Asks(r, n - 1, bad) + [Ask(Nth(r, n - 1), Nth(r, n - 1) !in bad)]
  }

  lemma AsksSnoc(events: seq<Event>, r: Request, n: nat, bad: set<ChunkKey>)
    requires r.first + n <= TWO_64
    ensures n == 0 ==> events + Asks(r, n, bad) == events
    ensures n > 0 ==> events + Asks(r, n, bad) ==
                      (events + Asks(r, n - 1, bad)) + [Ask(Nth(r, n - 1), Nth(r, n - 1) !in bad)]
  {
  }

  lemma LegalIsReal(w: World, r: Request, bad: set<ChunkKey>)
    requires TrueDisk(w) && Legal(w.objects, r) && r.first + r.n <= TWO_64
    ensures Real(w, Asks(r, r.n, bad))
  {
    forall a | a in Asks(r, r.n, bad) ensures HasChunk(w.objects, a.k) {
      var i :| 0 <= i < r.n && Asks(r, r.n, bad)[i] == a;
      if i < r.n - 1 { BaseMonotone(r.first + i, r.first + r.n - 1); }
    }
  }

  /** The chunks asked for, in order, whatever writes complete in between. */
  function ChunksAsked(events: seq<Event>): seq<ChunkKey> {
    if events == [] then []
    else
      var t, a := ChunksAsked(events[..|events| - 1]), events[|events| - 1];
      if a.Ask? then t + [a.k] else t
  }

  /** These events are the serving of the request: its chunks in order. */
  ghost predicate Serves(events: seq<Event>, r: Request)
    requires r.first + r.n <= TWO_64
  {
    && |ChunksAsked(events)| == r.n
    && (forall i | 0 <= i < r.n :: ChunksAsked(events)[i] == Nth(r, i))
  }

  /** No two of the chunks asked for live on the same shard, and the disk can be read. */
  ghost predicate SpreadOut(events: seq<Event>) {
    && (forall i | 0 <= i < |events| && events[i].Ask? :: events[i].readable)
    && (forall i | 0 <= i < |events| && events[i].Ask? :: AloneSince(events, 0, i))
  }

  // A session is one list of events for each request: its asks, and the writes that complete
  // until the next request begins.

  function Flat(session: seq<seq<Event>>): seq<Event> {
    if session == [] then [] else Flat(session[..|session| - 1]) + session[|session| - 1]
  }

  ghost predicate RealSession(w: World, session: seq<seq<Event>>) {
    forall m | 0 <= m <= |session| :: Real(w, Flat(session[..m]))
  }

  /** When a request begins, no write is pending. */
  ghost predicate QuietStarts(w: World, session: seq<seq<Event>>)
    requires RealSession(w, session)
  {
    forall m | 0 <= m < |session| :: NothingPending(w, Flat(session[..m]))
  }

  lemma AloneInSegment(before: seq<Event>, events: seq<Event>, i: nat)
    requires SpreadOut(events) && i < |events| && events[i].Ask?
    ensures AloneSince(before + events, |before|, |before| + i)
  {
    var all, s := before + events, |before|;
    assert AloneSince(events, 0, i);
    forall j | s <= j < s + i && all[j].Ask? ensures ShardOf(all[j].k) != ShardOf(all[s + i].k) {
      assert all[j] == events[j - s];
    }
  }

  lemma CalmInSegment(w: World, before: seq<Event>, events: seq<Event>, i: nat)
    requires Real(w, before) && Real(w, before + events) && NothingPending(w, before)
    requires SpreadOut(events) && i < |events| && events[i].Ask?
    ensures CalmAt(w, before + events, |before| + i)
  {
    var all, s := before + events, |before|;
    assert all[s + i] == events[i] && events[i].readable && all[..s] == before;
    AloneInSegment(before, events, i);
    assert CalmSince(w, all, s + i, s);
  }

  lemma CalmSegment(w: World, before: seq<Event>, events: seq<Event>)
    requires Real(w, before) && Real(w, before + events)
    requires Calm(w, before) && NothingPending(w, before) && SpreadOut(events)
    ensures Calm(w, before + events)
  {
    var all := before + events;
    forall i | 0 <= i < |all| ensures CalmAt(w, all, i) {
      if i < |before| {
        CalmSame(w, before, all, i);
      } else if all[i].Ask? {
        CalmInSegment(w, before, events, i - |before|);
      }
    }
  }

  lemma {:induction false} CalmSession(w: World, session: seq<seq<Event>>)
    requires RealSession(w, session) && QuietStarts(w, session)
    requires forall m | 0 <= m < |session| :: SpreadOut(session[m])
    ensures Real(w, Flat(session)) && Calm(w, Flat(session))
  {
    assert session[..|session|] == session;
    if session != [] {
      var t := session[..|session| - 1];
      forall m | 0 <= m <= |t| ensures t[..m] == session[..m] {}
      CalmSession(w, t);
      assert NothingPending(w, Flat(session[..|t|]));
      CalmSegment(w, Flat(t), session[|t|]);
    }
  }

  /** Requests at whose beginning no write is pending fetch each chunk at most once, if no
      request touches a shard twice. Writes may complete at any time, in any order. */
  lemma SpreadRequestsFetchOnce(w: World, session: seq<seq<Event>>)
    requires RealSession(w, session) && QuietStarts(w, session)
    requires forall m | 0 <= m < |session| :: SpreadOut(session[m])
    ensures Real(w, Flat(session)) && FetchedOnce(Run(w, Flat(session)))
  {
    CalmSession(w, session);
    CalmRunsFetchOnce(w, Flat(session));
  }

  /** The request lies in one aligned block of 256 chunks. */
  predicate InOneBlock(r: Request) {
    r.first % 256 + r.n <= 256 && r.first + r.n <= TWO_64
  }

  lemma {:induction false} AskedChunks(events: seq<Event>, i: nat)
    requires i < |events| && events[i].Ask?
    ensures |ChunksAsked(events[..i])| < |ChunksAsked(events)|
    ensures ChunksAsked(events)[|ChunksAsked(events[..i])|] == events[i].k
    decreases |events|
  {
    var n := |events| - 1;
    if i < n {
      AskedChunks(events[..n], i);
      assert events[..n][..i] == events[..i];
    }
  }

  lemma AskedInOrder(events: seq<Event>, j: nat, i: nat)
    requires j < i < |events| && events[j].Ask?
    ensures |ChunksAsked(events[..j])| < |ChunksAsked(events[..i])|
  {
    AskedChunks(events[..i], j);
    assert events[..i][..j] == events[..j];
  }

  lemma SameBlock(first: nat, a: nat)
    requires first % 256 + a < 256
    ensures (first + a) / 256 == first / 256
  {
  }

  lemma BlockApart(r: Request, a: nat, b: nat)
    requires InOneBlock(r) && a < b < r.n
    ensures ShardOf(Nth(r, a)) != ShardOf(Nth(r, b))
  {
    SameBlock(r.first, a);
    SameBlock(r.first, b);
    if ShardOf(Nth(r, a)) == ShardOf(Nth(r, b)) { NoRivalInBlock(Nth(r, a), Nth(r, b)); }
  }

  lemma BlockIsSpread(events: seq<Event>, r: Request)
    requires InOneBlock(r) && Serves(events, r)
    requires forall i | 0 <= i < |events| && events[i].Ask? :: events[i].readable
    ensures SpreadOut(events)
  {
    forall i, j | 0 <= j < i < |events| && events[i].Ask? && events[j].Ask?
      ensures ShardOf(events[j].k) != ShardOf(events[i].k)
    {
      AskedChunks(events, i);
      AskedChunks(events, j);
      AskedInOrder(events, j, i);
      BlockApart(r, |ChunksAsked(events[..j])|, |ChunksAsked(events[..i])|);
    }
  }

  /** In particular if each request stays within one aligned block of 256 chunks, that is 1 GiB. */
  lemma BlockRequestsFetchOnce(w: World, session: seq<seq<Event>>, requests: seq<Request>)
    requires RealSession(w, session) && QuietStarts(w, session)
    requires |requests| == |session|
    requires forall m | 0 <= m < |session| :: InOneBlock(requests[m]) && Serves(session[m], requests[m])
    requires forall m, i | 0 <= m < |session| && 0 <= i < |session[m]| && session[m][i].Ask? :: session[m][i].readable
    ensures Real(w, Flat(session)) && FetchedOnce(Run(w, Flat(session)))
  {
    forall m | 0 <= m < |session| ensures SpreadOut(session[m]) { BlockIsSpread(session[m], requests[m]); }
    SpreadRequestsFetchOnce(w, session);
  }

  // ---------------------------------------------------------------- a chunk that is fetched twice

  /** The chunk of the second block that shares its shard with chunk 0. */
  function Rival(key: ObjectKey): nat {
    256 + LowByteOn(key, 1, ShardOf(ChunkKey(key, 0)))
  }

  lemma RivalSharesShard(key: ObjectKey)
    ensures ShardOf(ChunkKey(key, Rival(key))) == ShardOf(ChunkKey(key, 0))
  {
    BlockPermutesShards(key, 1, LowByteOn(key, 1, ShardOf(ChunkKey(key, 0))), ShardOf(ChunkKey(key, 0)));
  }

  /** First the rival alone, then everything up to it. */
  function OnlyRival(key: ObjectKey): Request {
    Request(key, Rival(key), 1)
  }

  function UpToRival(key: ObjectKey): Request {
    Request(key, 0, Rival(key) + 1)
  }

  function Twice(key: ObjectKey): seq<seq<Event>> {
    [Asks(OnlyRival(key), 1, {}), Asks(UpToRival(key), Rival(key) + 1, {})]
  }

  predicate TwoGiB(objects: Store, key: ObjectKey) {
    key in objects && Base(512) <= |objects[key]| <= MAX_INT64
  }

  lemma ChunkSize(objects: Store, key: ObjectKey, i: nat)
    requires TwoGiB(objects, key) && i < 512
    ensures HasChunk(objects, ChunkKey(key, i)) && EntryOf(objects, ChunkKey(key, i)).size == CHUNK_SIZE
  {
    BaseMonotone(i, i + 1);
    if i + 1 < 512 { BaseMonotone(i + 1, 512); }
    BaseMonotone(i, 512);
  }

  /** The rival's first request, and the chunks before it in the second. */
  lemma OneChunk(w: World, k: ChunkKey)
    requires TrueDisk(w) && HasChunk(w.objects, k)
    ensures Real(w, [Ask(k, true)])
    ensures Trace(w, [Ask(k, true)]) == [EntryOf(w.objects, k)]
    ensures NothingPending(w, []) && NothingPending(w, [Ask(k, true)])
  {
    var a, e := Ask(k, true), EntryOf(w.objects, k);
    assert [a] == [] + [a];
    assert Real(w, [a]);
    RunSnoc(w, [], a);
    assert ListOf(Start(w).hot, k) == [];
    assert Victims([], PerShard(w.capacity), e) == [];
  }

  lemma {:induction false} TraceConcat(w: World, a: seq<Event>, b: seq<Event>)
    requires Real(w, a + b) && Real(w, a) && Real(w, b)
    ensures Trace(w, a + b) == Trace(w, a) + Trace(w, b)
    decreases |b|
  {
    if b == [] {
      assert a + b == a;
    } else {
      var t, x := b[..|b| - 1], b[|b| - 1];
      assert b == t + [x] && a + b == (a + t) + [x];
      RunSnoc(w, t, x);
      RunSnoc(w, a + t, x);
      TraceConcat(w, a, t);
    }
  }

  /** The chunks before the rival are others, and one of them is full and shares its shard. */
  lemma RivalsOfRival(w: World, key: ObjectKey)
    requires TwoGiB(w.objects, key) && Real(w, Asks(UpToRival(key), Rival(key), {}))
    ensures var later := Trace(w, Asks(UpToRival(key), Rival(key), {}));
            && (forall x | x in later :: x.key != ChunkKey(key, Rival(key)))
            && exists x | x in Only(later, ShardOf(ChunkKey(key, Rival(key)))) :: x.size == CHUNK_SIZE
  {
    var asks := Asks(UpToRival(key), Rival(key), {});
    var later := Trace(w, asks);
    TraceHolds(w, asks);
    forall x | x in later ensures x.key != ChunkKey(key, Rival(key)) {
      var i :| 0 <= i < |asks| && asks[i].k == x.key;
    }
    var zero := Nth(UpToRival(key), 0);
    assert asks[0] == Ask(zero, true);
    assert Asked(asks, zero);
    RivalSharesShard(key);
    ChunkSize(w.objects, key, 0);
    assert EntryOf(w.objects, zero) in Only(later, ShardOf(ChunkKey(key, Rival(key))));
  }

  lemma {:induction false} DistinctAtLeast(trace: seq<Entry<bytes>>, e: Entry<bytes>)
    requires Consistent(trace) && e in trace
    ensures DistinctBytes(trace) >= e.size
  {
    var t, x := trace[..|trace| - 1], trace[|trace| - 1];
    assert trace == t + [x];
    ConsistentPart(trace, t);
    if e in t { DistinctAtLeast(t, e); } else { assert e == x; NotMentioned(t, x); }
  }

  lemma NotMentioned(t: seq<Entry<bytes>>, x: Entry<bytes>)
    requires Consistent(t + [x]) && x !in t
    ensures !Mentions(t, x.key)
  {
    forall e | e in t ensures e.key != x.key { assert e in t + [x] && x in t + [x]; }
  }

  lemma RivalBytes(e: Entry<bytes>, later: seq<Entry<bytes>>)
    requires Consistent([e] + later)
    requires exists x | x in Only(later, ShardOf(e.key)) :: x.size == CHUNK_SIZE
    ensures Only(later, ShardOf(e.key)) != [] && DistinctBytes(Only(later, ShardOf(e.key))) >= CHUNK_SIZE
  {
    var rivals := Only(later, ShardOf(e.key));
    var x :| x in rivals && x.size == CHUNK_SIZE;
    ConsistentPart([e] + later, rivals);
    DistinctAtLeast(rivals, x);
  }

  /** Two full chunks of one shard that is too small for both do not stay together. */
  lemma TooBigTogether(capacity: int, e: Entry<bytes>, later: seq<Entry<bytes>>, rivals: seq<Entry<bytes>>)
    requires Consistent([e] + later) && PerShard(capacity) < 2 * CHUNK_SIZE && e.size == CHUNK_SIZE
    requires forall x | x in later :: x.key != e.key
    requires rivals == Only(later, ShardOf(e.key)) && rivals != [] && DistinctBytes(rivals) >= CHUNK_SIZE
    ensures !Resident(AfterAll(capacity, [e] + later), e.key)
  {
    assert [] + [e] + later == [e] + later;
    StaysHotIff(capacity, [], e, later);
  }

  /** What has happened when the rival's turn comes again. */
  function BeforeTwice(key: ObjectKey): seq<Event> {
    Asks(OnlyRival(key), 1, {}) + Asks(UpToRival(key), Rival(key), {})
  }

  lemma TwiceIsReal(w: World, key: ObjectKey)
    requires TrueDisk(w) && TwoGiB(w.objects, key)
    ensures Real(w, Asks(OnlyRival(key), 1, {})) && Real(w, Asks(UpToRival(key), Rival(key), {}))
    ensures Real(w, Asks(UpToRival(key), Rival(key) + 1, {})) && Real(w, BeforeTwice(key))
    ensures Asks(OnlyRival(key), 1, {}) == [Ask(ChunkKey(key, Rival(key)), true)]
  {
    var r := UpToRival(key);
    ChunkSize(w.objects, key, Rival(key));
    LegalIsReal(w, OnlyRival(key), {});
    LegalIsReal(w, r, {});
    assert Asks(r, r.n, {})[..r.n - 1] == Asks(r, r.n - 1, {});
    RealPart(w, Asks(r, r.n, {}), r.n - 1);
    RealConcat(w, Asks(OnlyRival(key), 1, {}), Asks(r, r.n - 1, {}));
    assert Nth(OnlyRival(key), 0) == ChunkKey(key, Rival(key));
  }

  lemma RivalEvicted(w: World, key: ObjectKey)
    requires TrueDisk(w) && TwoGiB(w.objects, key) && PerShard(w.capacity) < 2 * CHUNK_SIZE
    ensures Real(w, BeforeTwice(key))
    ensures !HotAfter(w, BeforeTwice(key), ChunkKey(key, Rival(key)))
  {
    var k, asks := ChunkKey(key, Rival(key)), Asks(UpToRival(key), Rival(key), {});
    TwiceIsReal(w, key);
    ChunkSize(w.objects, key, Rival(key));
    OneChunk(w, k);
    TraceConcat(w, [Ask(k, true)], asks);
    RivalsOfRival(w, key);
    TraceHolds(w, BeforeTwice(key));
    var e, later := EntryOf(w.objects, k), Trace(w, asks);
    RivalBytes(e, later);
    TooBigTogether(w.capacity, e, later, Only(later, ShardOf(k)));
  }

  lemma NotSpilledByAsks(w: World, events: seq<Event>, k: ChunkKey)
    requires Real(w, events) && forall i | 0 <= i < |events| :: events[i].Ask?
    ensures !Spilled(w, events, k)
  {
  }

  lemma FirstAskMisses(w: World, events: seq<Event>)
    requires Real(w, events) && events != [] && events[0].Ask? && events[0].k !in w.disk
    ensures MissAt(w, events, 0)
  {
    assert events[..0] == [];
    assert ListOf(Start(w).hot, events[0].k) == [];
  }

  /** The rival is asked for again, not hot and not on the disk. */
  lemma RivalRefetched(w: World, key: ObjectKey)
    requires TrueDisk(w) && TwoGiB(w.objects, key) && PerShard(w.capacity) < 2 * CHUNK_SIZE
    requires ChunkKey(key, Rival(key)) !in w.disk
    ensures var all := BeforeTwice(key) + [Ask(ChunkKey(key, Rival(key)), true)];
            Real(w, all) && !FetchedOnce(Run(w, all))
  {
    TwiceIsReal(w, key);
    RivalEvicted(w, key);
    NotSpilledByAsks(w, BeforeTwice(key), ChunkKey(key, Rival(key)));
    RealConcat(w, BeforeTwice(key), Asks(OnlyRival(key), 1, {}));
    assert BeforeTwice(key)[0] == Ask(Nth(OnlyRival(key), 0), true);
    AskedUnsafe(w, BeforeTwice(key), ChunkKey(key, Rival(key)));
  }

  lemma AskedUnsafe(w: World, before: seq<Event>, k: ChunkKey)
    requires Real(w, before) && Real(w, before + [Ask(k, true)]) && before != [] && before[0] == Ask(k, true)
    requires k !in w.disk && !HotAfter(w, before, k) && !Spilled(w, before, k)
    ensures !FetchedOnce(Run(w, before + [Ask(k, true)]))
  {
    var all := before + [Ask(k, true)];
    FirstAskMisses(w, all);
    MissNow(w, before, Ask(k, true));
    assert all[0].k == all[|before|].k == k;
    FetchedOnceIff(w, all);
  }

  lemma TwiceSplits(key: ObjectKey)
    ensures Asks(OnlyRival(key), 1, {}) + Asks(UpToRival(key), Rival(key) + 1, {}) ==
            BeforeTwice(key) + [Ask(ChunkKey(key, Rival(key)), true)]
  {
    AsksSnoc(Asks(OnlyRival(key), 1, {}), UpToRival(key), Rival(key) + 1, {});
  }

  lemma TwoSegments(w: World, a: seq<Event>, b: seq<Event>)
    requires Real(w, a) && Real(w, a + b)
    requires NothingPending(w, []) && NothingPending(w, a)
    ensures RealSession(w, [a, b]) && QuietStarts(w, [a, b]) && Flat([a, b]) == a + b
  {
    var s := [a, b];
    assert s[..0] == [] && s[..1] == [a] && s[..2] == s && [a][..0] == [];
    assert Flat([a]) == [] + a == a;
  }

  lemma TwiceIsQuiet(w: World, key: ObjectKey)
    requires TwoGiB(w.objects, key)
    requires Real(w, Asks(OnlyRival(key), 1, {}) + Asks(UpToRival(key), Rival(key) + 1, {}))
    ensures RealSession(w, Twice(key)) && QuietStarts(w, Twice(key))
    ensures Flat(Twice(key)) == Asks(OnlyRival(key), 1, {}) + Asks(UpToRival(key), Rival(key) + 1, {})
  {
    TwiceIsReal(w, key);
    ChunkSize(w.objects, key, Rival(key));
    OneChunk(w, ChunkKey(key, Rival(key)));
    TwoSegments(w, Asks(OnlyRival(key), 1, {}), Asks(UpToRival(key), Rival(key) + 1, {}));
  }

  lemma TwiceServes(key: ObjectKey)
    ensures Serves(Twice(key)[0], OnlyRival(key)) && Serves(Twice(key)[1], UpToRival(key))
  {
    AsksServe(OnlyRival(key), 1, {});
    AsksServe(UpToRival(key), Rival(key) + 1, {});
  }

  /** Completing all writes between requests is not enough: with less than two chunks per
      shard, as 512 MiB and 1 GiB give, for any object of 2 GiB these two requests, at whose
      beginnings no write is pending, fetch a chunk twice, unless it was on the disk before. */
  lemma DrainingBetweenRequestsIsNotEnough(w: World, key: ObjectKey)
    requires TrueDisk(w) && TwoGiB(w.objects, key) && w.capacity < 2147483648
    requires ChunkKey(key, Rival(key)) !in w.disk
    ensures RealSession(w, Twice(key)) && QuietStarts(w, Twice(key))
    ensures Serves(Twice(key)[0], OnlyRival(key)) && Serves(Twice(key)[1], UpToRival(key))
    ensures Real(w, Flat(Twice(key))) && !FetchedOnce(Run(w, Flat(Twice(key))))
  {
    TwiceSplits(key);
    RivalRefetched(w, key);
    TwiceIsQuiet(w, key);
    TwiceServes(key);
  }

  lemma {:induction false} AsksServe(r: Request, n: nat, bad: set<ChunkKey>)
    requires r.first + n <= TWO_64
    ensures |ChunksAsked(Asks(r, n, bad))| == n
    ensures forall i | 0 <= i < n :: ChunksAsked(Asks(r, n, bad))[i] == Nth(r, i)
  {
    if n > 0 {
      AsksServe(r, n - 1, bad);
      assert Asks(r, n, bad)[..n - 1] == Asks(r, n - 1, bad);
    }
  }

  // ---------------------------------------------------------------- two writes of one chunk

  /** Chunk k lives alone on its shard, and its rival does not fit beside it. */
  lemma SwapsOut(w: World, p: Proxy, k: ChunkKey, rival: ChunkKey)
    requires Good(w.objects, p) && HasChunk(w.objects, k) && HasChunk(w.objects, rival) && k != rival
    requires ListOf(p.hot, rival) == [EntryOf(w.objects, k)]
    requires EntryOf(w.objects, k).size + EntryOf(w.objects, rival).size > PerShard(w.capacity)
    ensures var q := Resolved(p, w, rival, true);
            && Good(w.objects, q) && ListOf(q.hot, rival) == [EntryOf(w.objects, rival)]
            && q.pending == p.pending + multiset{EntryOf(w.objects, k)}
  {
    var l, e, c := ListOf(p.hot, rival), EntryOf(w.objects, rival), PerShard(w.capacity);
    assert !Has(l, rival);
    assert SumTo(l, 1) == SumTo(l, 0) + l[0].size;
    KeepLenIs(l, 1, c - e.size, 0);
    assert AfterPut(l, c, e) == [e] + l[..0];
    assert FromTail(l, 0) == FromTail(l, 1) + [l[0]] == l;
    ResolvedIsDemand(w, p, rival, true);
  }

  lemma FirstComesIn(w: World, k: ChunkKey)
    requires TrueDisk(w) && HasChunk(w.objects, k)
    ensures var q := Resolved(Start(w), w, k, true);
            Good(w.objects, q) && ListOf(q.hot, k) == [EntryOf(w.objects, k)] && q.pending == multiset{}
  {
    assert ListOf(Start(w).hot, k) == [];
    assert Victims([], PerShard(w.capacity), EntryOf(w.objects, k)) == [];
    ResolvedIsDemand(w, Start(w), k, true);
  }

  lemma NextEvent(w: World, events: seq<Event>, a: Event, p: Proxy, q: Proxy)
    requires Real(w, events) && HasChunk(w.objects, a.k) && Run(w, events) == p && Apply(p, w, a) == q
    ensures Real(w, events + [a]) && Run(w, events + [a]) == q
  {
    RunSnoc(w, events, a);
  }

  lemma TwoEvents(w: World, events: seq<Event>, a: Event, b: Event, p: Proxy, q: Proxy, r: Proxy)
    requires Real(w, events) && HasChunk(w.objects, a.k) && HasChunk(w.objects, b.k)
    requires Run(w, events) == p && Apply(p, w, a) == q && Apply(q, w, b) == r
    ensures Real(w, events + [a, b]) && Run(w, events + [a, b]) == r
  {
    NextEvent(w, events, a, p, q);
    NextEvent(w, events + [a], b, q, r);
    assert events + [a, b] == (events + [a]) + [b];
  }

  lemma TwoOfThree(e: Entry<bytes>, r: Entry<bytes>)
    requires e != r
    ensures (multiset{} + multiset{e} + multiset{r} + multiset{e})[e] == 2
  {
  }

  lemma SwapAndBack(w: World, k: ChunkKey, rival: ChunkKey)
    returns (p1: Proxy, p2: Proxy, p3: Proxy, p4: Proxy)
    requires TrueDisk(w) && HasChunk(w.objects, k) && HasChunk(w.objects, rival)
    requires k != rival && ShardOf(k) == ShardOf(rival)
    requires EntryOf(w.objects, k).size + EntryOf(w.objects, rival).size > PerShard(w.capacity)
    ensures Apply(Start(w), w, Ask(k, true)) == p1 && Apply(p1, w, Ask(rival, true)) == p2
    ensures Apply(p2, w, Ask(k, true)) == p3 && Apply(p3, w, Ask(rival, true)) == p4
    ensures p4.pending[EntryOf(w.objects, k)] == 2
  {
    FirstComesIn(w, k);
    p1 := Resolved(Start(w), w, k, true);
    SwapsOut(w, p1, k, rival);
    p2 := Resolved(p1, w, rival, true);
    SwapsOut(w, p2, rival, k);
    p3 := Resolved(p2, w, k, true);
    SwapsOut(w, p3, k, rival);
    p4 := Resolved(p3, w, rival, true);
    TwoOfThree(EntryOf(w.objects, k), EntryOf(w.objects, rival));
  }

  lemma BackAndForth(w: World, a: Event, b: Event, p1: Proxy, p2: Proxy, p3: Proxy, p4: Proxy)
    requires TrueDisk(w) && HasChunk(w.objects, a.k) && HasChunk(w.objects, b.k)
    requires Apply(Start(w), w, a) == p1 && Apply(p1, w, b) == p2 && Apply(p2, w, a) == p3 && Apply(p3, w, b) == p4
    ensures Real(w, [a, b] + [a, b]) && Run(w, [a, b] + [a, b]) == p4
  {
    TwoEvents(w, [], a, b, Start(w), p1, p2);
    assert [] + [a, b] == [a, b];
    TwoEvents(w, [a, b], a, b, p2, p3, p4);
  }

  /** Two chunks of one shard that do not fit together, asked for in turn while no write
      completes: two background writes of the same chunk are under way at once. */
  lemma WritesCanOverlap(w: World, k: ChunkKey, rival: ChunkKey)
    requires TrueDisk(w) && HasChunk(w.objects, k) && HasChunk(w.objects, rival)
    requires k != rival && ShardOf(k) == ShardOf(rival)
    requires 256 * (|Chunk(w.objects, k)| + |Chunk(w.objects, rival)|) > w.capacity
    ensures var events := [Ask(k, true), Ask(rival, true)] + [Ask(k, true), Ask(rival, true)];
            Real(w, events) && Run(w, events).pending[EntryOf(w.objects, k)] == 2
  {
    FitsShare(w.capacity, |Chunk(w.objects, k)| + |Chunk(w.objects, rival)|);
    var p1, p2, p3, p4 := SwapAndBack(w, k, rival);
    BackAndForth(w, Ask(k, true), Ask(rival, true), p1, p2, p3, p4);
  }
}
