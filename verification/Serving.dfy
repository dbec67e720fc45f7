/** Serving a range request as a run: its chunks in order, and the background writes that
    complete in between. What HandlerImpl is proved against. */
module Serving {
  import opened Basics
  import opened Fnv
  import opened Assembly
  import opened Sequential
  import opened SequentialRequests

  // What goes on outside while a request is served: what the backend delivers, which chunks
  // cannot be read from the disk, which background writes complete before the i-th chunk is
  // resolved, and how many bytes of the body the client takes.
  datatype Outside = Outside(backend: map<ChunkKey, bytes>, unreadable: set<ChunkKey>,
                             lands: seq<seq<ChunkKey>>, accepts: nat)

  function LandsBefore(x: Outside, i: nat): seq<ChunkKey> {
    if i < |x.lands| then x.lands[i] else []
  }

  predicate AllThere(objects: Store, ks: seq<ChunkKey>) {
    forall k | k in ks :: HasChunk(objects, k)
  }

  /** The backend answers with true bytes or with an error; writes are of chunks that exist. */
  ghost predicate Honest(objects: Store, x: Outside) {
    && (forall k | k in x.backend :: HasChunk(objects, k) && x.backend[k] == Chunk(objects, k))
    && (forall i: nat :: AllThere(objects, LandsBefore(x, i)))
  }

  // ---------------------------------------------------------------- runs from any state

  function RunFrom(p: Proxy, w: World, events: seq<Event>): Proxy
    requires Real(w, events)
  {
    if events == [] then p else Apply(RunFrom(p, w, events[..|events| - 1]), w, events[|events| - 1])
  }

  function TierNow(p: Proxy, a: Event): seq<Tier> {
    if a.Ask? then [TierOf(p, a.k, a.readable)] else []
  }

  /** Where the chunks asked for come from. */
  function TiersOf(p: Proxy, w: World, events: seq<Event>): seq<Tier>
    requires Real(w, events)
  {
    if events == [] then []
    else
      var t, a := events[..|events| - 1], events[|events| - 1];
      TiersOf(p, w, t) + TierNow(RunFrom(p, w, t), a)
  }

  lemma FromSnoc(p: Proxy, w: World, events: seq<Event>, a: Event)
    requires Real(w, events) && HasChunk(w.objects, a.k)
    ensures Real(w, events + [a])
    ensures RunFrom(p, w, events + [a]) == Apply(RunFrom(p, w, events), w, a)
    ensures TiersOf(p, w, events + [a]) == TiersOf(p, w, events) + TierNow(RunFrom(p, w, events), a)
  {
    var all := events + [a];
    assert all[..|all| - 1] == events && all[|all| - 1] == a;
  }

  lemma {:induction false} FromConcat(p: Proxy, w: World, a: seq<Event>, b: seq<Event>)
    requires Real(w, a) && Real(w, b)
    ensures Real(w, a + b) && RunFrom(p, w, a + b) == RunFrom(RunFrom(p, w, a), w, b)
    decreases |b|
  {
    if b == [] {
      assert a + b == a;
    } else {
      var t, e := b[..|b| - 1], b[|b| - 1];
      RealPart(w, b, |b| - 1);
      assert e in b && b == t + [e] && a + b == (a + t) + [e];
      FromConcat(p, w, a, t);
      FromSnoc(p, w, a + t, e);
      FromSnoc(RunFrom(p, w, a), w, t, e);
    }
  }

  /** A run goes on from where it is: what holds of runs holds of what continues them. */
  lemma {:induction false} RunGoesOn(w: World, events: seq<Event>, later: seq<Event>)
    requires Real(w, events) && Real(w, later)
    ensures Real(w, events + later)
    ensures Run(w, events + later) == RunFrom(Run(w, events), w, later)
    decreases |later|
  {
    if later == [] {
      assert events + later == events;
    } else {
      var t, a := later[..|later| - 1], later[|later| - 1];
      assert events + later == (events + t) + [a] && a in later;
      RunGoesOn(w, events, t);
      RealConcat(w, events + t, [a]);
      RunSnoc(w, events + t, a);
    }
  }

  // ---------------------------------------------------------------- the events of a request

  /** Pending writes of these chunks complete, one after the other. */
  function Lands(ks: seq<ChunkKey>): (events: seq<Event>)
    ensures |events| == |ks| && forall i | 0 <= i < |ks| :: events[i] == Land(ks[i])
  {
    if ks == [] then [] else Lands(ks[..|ks| - 1]) + [Land(ks[|ks| - 1])]
  }

  /** The first n chunks of the request are resolved. */
  function Steps(r: Request, x: Outside, n: nat): seq<Event>
    requires r.first + n <= TWO_64
    decreases n, 0
  {
    if n == 0 then [] else Ready(r, x, n - 1) + [Turn(r, x, n - 1)]
  }

  /** ... and the writes have completed that complete before the next one is. */
  function Ready(r: Request, x: Outside, n: nat): seq<Event>
    requires r.first + n <= TWO_64
    decreases n, 1
  {
    Steps(r, x, n) + Lands(LandsBefore(x, n))
  }

  function Turn(r: Request, x: Outside, i: nat): Event
    requires r.first + i < TWO_64
  {
    Ask(Nth(r, i), Nth(r, i) !in x.unreadable)
  }

  lemma NthIsThere(objects: Store, r: Request, i: nat)
    requires Legal(objects, r) && i < r.n
    ensures r.first + i < TWO_64 && HasChunk(objects, ChunkKey(r.key, r.first + i))
  {
    if i < r.n - 1 { BaseMonotone(r.first + i, r.first + r.n - 1); }
  }

  lemma LandsAreReal(w: World, ks: seq<ChunkKey>)
    requires TrueDisk(w) && AllThere(w.objects, ks)
    ensures Real(w, Lands(ks))
  {
    forall a | a in Lands(ks) ensures HasChunk(w.objects, a.k) {
      var i :| 0 <= i < |ks| && Lands(ks)[i] == a;
      assert ks[i] in ks;
    }
  }

  function AllLanded(p: Proxy, w: World, ks: seq<ChunkKey>): Proxy
    requires TrueDisk(w) && AllThere(w.objects, ks)
  {
    LandsAreReal(w, ks);
    RunFrom(p, w, Lands(ks))
  }

  lemma LandsSnoc(p: Proxy, w: World, ks: seq<ChunkKey>, i: nat)
    requires i < |ks| && TrueDisk(w) && AllThere(w.objects, ks)
    ensures AllThere(w.objects, ks[..i]) && AllThere(w.objects, ks[..i + 1])
    ensures AllLanded(p, w, ks[..i + 1]) == Apply(AllLanded(p, w, ks[..i]), w, Land(ks[i]))
  {
    LandsAreReal(w, ks[..i]);
    assert ks[..i + 1][..i] == ks[..i];
    assert Lands(ks[..i + 1]) == Lands(ks[..i]) + [Land(ks[i])];
    FromSnoc(p, w, Lands(ks[..i]), Land(ks[i]));
  }

  lemma {:induction false} StepsAreReal(w: World, r: Request, x: Outside, n: nat)
    requires TrueDisk(w) && Legal(w.objects, r) && Honest(w.objects, x) && n <= r.n && r.first + r.n <= TWO_64
    ensures Real(w, Steps(r, x, n)) && Real(w, Ready(r, x, n))
  {
    if n > 0 {
      StepsAreReal(w, r, x, n - 1);
      NthIsThere(w.objects, r, n - 1);
      RealConcat(w, Ready(r, x, n - 1), [Turn(r, x, n - 1)]);
    }
    assert AllThere(w.objects, LandsBefore(x, n));
    LandsAreReal(w, LandsBefore(x, n));
    RealConcat(w, Steps(r, x, n), Lands(LandsBefore(x, n)));
  }

  lemma {:induction false} LandsAskNothing(before: seq<Event>, ks: seq<ChunkKey>)
    ensures ChunksAsked(before + Lands(ks)) == ChunksAsked(before)
    decreases |ks|
  {
    var all := before + Lands(ks);
    if ks == [] {
      assert all == before;
    } else {
      var t := ks[..|ks| - 1];
      assert all[..|all| - 1] == before + Lands(t);
      LandsAskNothing(before, t);
    }
  }

  /** The events are a serving of the request, whatever writes complete in between. */
  lemma {:induction false} StepsServe(r: Request, x: Outside, n: nat)
    requires r.first + n <= TWO_64
    ensures |ChunksAsked(Steps(r, x, n))| == n
    ensures forall i | 0 <= i < n :: ChunksAsked(Steps(r, x, n))[i] == Nth(r, i)
  {
    if n > 0 {
      StepsServe(r, x, n - 1);
      LandsAskNothing(Steps(r, x, n - 1), LandsBefore(x, n - 1));
      assert Steps(r, x, n)[..|Steps(r, x, n)| - 1] == Ready(r, x, n - 1);
    }
  }

  lemma FlatSnoc(session: seq<seq<Event>>, events: seq<Event>)
    ensures Flat(session + [events]) == Flat(session) + events
  {
    var all := session + [events];
    assert all[..|all| - 1] == session;
  }

  /** So a handler that was in the state of a session, served a request while some writes
      completed, and then saw others complete, is in the state of the session with one more
      request: what SequentialRequests says of sessions holds of handlers. */
  lemma SessionIsServed(w: World, session: seq<seq<Event>>, r: Request, x: Outside, ks: seq<ChunkKey>)
    requires Real(w, Flat(session)) && Legal(w.objects, r) && Honest(w.objects, x) && AllThere(w.objects, ks)
    requires r.first + r.n <= TWO_64
    ensures var events := Steps(r, x, r.n) + Lands(ks);
            && Real(w, events) && Serves(events, r) && Real(w, Flat(session + [events]))
            && Run(w, Flat(session + [events])) == RunFrom(Run(w, Flat(session)), w, events)
  {
    var events := Steps(r, x, r.n) + Lands(ks);
    StepsAreReal(w, r, x, r.n);
    LandsAreReal(w, ks);
    RealConcat(w, Steps(r, x, r.n), Lands(ks));
    StepsServe(r, x, r.n);
    LandsAskNothing(Steps(r, x, r.n), ks);
    FlatSnoc(session, events);
    RunGoesOn(w, Flat(session), events);
  }

  // ---------------------------------------------------------------- what the loop keeps

  /** tierRank: the slower the tier, the larger. */
  function Rank(t: Tier): nat {
    match t
    case Hot => 0
    case Cold => 1
    case Inflight => 2
    case Backend => 3
  }

  function Slower(a: Tier, b: Tier): Tier {
    if Rank(b) > Rank(a) then b else a
  }

  /** The slowest of some tiers, found one by one. */
  function SlowestOf(tiers: seq<Tier>): Tier {
    if tiers == [] then Hot else Slower(SlowestOf(tiers[..|tiers| - 1]), tiers[|tiers| - 1])
  }

  lemma SlowerSnoc(tiers: seq<Tier>, t: Tier)
    ensures SlowestOf(tiers + [t]) == Slower(SlowestOf(tiers), t)
  {
    assert (tiers + [t])[..|tiers|] == tiers;
  }

  /** It is the backend, if any chunk came from there; else another request's fetch, else the
      disk, else memory: the one of greatest rank. */
  lemma {:induction false} SlowestIsTheMaximum(tiers: seq<Tier>)
    ensures SlowestOf(tiers) ==
            if Backend in tiers then Backend else if Inflight in tiers then Inflight
            else if Cold in tiers then Cold else Hot
    ensures forall t | t in tiers :: Rank(t) <= Rank(SlowestOf(tiers))
    ensures tiers != [] ==> SlowestOf(tiers) in tiers
  {
    if tiers != [] {
      var before, last := tiers[..|tiers| - 1], tiers[|tiers| - 1];
      SlowestIsTheMaximum(before);
      assert tiers == before + [last];
    }
  }

  /** The chunk is hot, on the disk and readable, or delivered by the backend. */
  predicate Resolvable(p: Proxy, x: Outside, k: ChunkKey) {
    TierOf(p, k, k !in x.unreadable) != Backend || k in x.backend
  }

  /** The backend delivers each chunk that comes from it. */
  ghost predicate Delivered(r: Request, tiers: seq<Tier>, x: Outside)
    requires r.first + |tiers| <= TWO_64
  {
    forall i | 0 <= i < |tiers| :: tiers[i] == Backend ==> Nth(r, i) in x.backend
  }

  /** The log of Tracker.Record after n more chunks of a request. */
  function Recorded(log: seq<ChunkKey>, r: Request, n: nat): seq<ChunkKey>
    requires r.first + n <= TWO_64
  {
    if n == 0 then log else Recorded(log, r, n - 1) + [Nth(r, n - 1)]
  }

  /** The predictor is told of exactly the chunks of the range, in order. */
  lemma {:induction false} RecordedIsTheRange(log: seq<ChunkKey>, r: Request, n: nat)
    requires r.first + n <= TWO_64
    ensures |Recorded(log, r, n)| == |log| + n && Recorded(log, r, n)[..|log|] == log
    ensures forall i | 0 <= i < n :: Recorded(log, r, n)[|log| + i] == Nth(r, i)
  {
    if n > 0 { RecordedIsTheRange(log, r, n - 1); }
  }

  /** The proxy that was p has resolved n chunks, from these tiers, and is now q. */
  ghost predicate Stands(p: Proxy, q: Proxy, w: World, r: Request, x: Outside, n: nat, tiers: seq<Tier>)
    requires r.first + n <= TWO_64
  {
    Real(w, Steps(r, x, n)) && q == RunFrom(p, w, Steps(r, x, n)) && tiers == TiersOf(p, w, Steps(r, x, n))
  }

  /** It holds these chunks, and told the tracker of them. */
  ghost predicate Holds(w: World, r: Request, x: Outside, n: nat, chunks: seq<bytes>, tiers: seq<Tier>,
                        was: seq<ChunkKey>, log: seq<ChunkKey>) {
    && Legal(w.objects, r) && |chunks| == |tiers| == n <= r.n && r.first + r.n < TWO_64
    && AreChunks(w.objects, r.key, r.first, chunks) && Delivered(r, tiers, x) && log == Recorded(was, r, n)
  }

  /** The chunk loop has resolved n chunks: what it holds, and what it did to the proxy. */
  ghost predicate Progress(p: Proxy, q: Proxy, w: World, r: Request, x: Outside, n: nat, chunks: seq<bytes>,
                           tiers: seq<Tier>, was: seq<ChunkKey>, log: seq<ChunkKey>) {
    Holds(w, r, x, n, chunks, tiers, was, log) && Stands(p, q, w, r, x, n, tiers)
  }

  lemma NoProgressYet(p: Proxy, w: World, r: Request, x: Outside, was: seq<ChunkKey>)
    requires TrueDisk(w) && Legal(w.objects, r) && r.first + r.n < TWO_64
    ensures Progress(p, p, w, r, x, 0, [], [], was, was)
  {
  }

  /** The n-th chunk is not hot, cannot be read from disk, and is not delivered. */
  ghost predicate StoppedAt(p: Proxy, q: Proxy, w: World, r: Request, x: Outside, n: nat,
                            was: seq<ChunkKey>, log: seq<ChunkKey>) {
    && n < r.n && r.first + r.n < TWO_64 && Real(w, Ready(r, x, n))
    && q == RunFrom(p, w, Ready(r, x, n)) && log == Recorded(was, r, n)
    && !Resolvable(q, x, Nth(r, n))
  }

  /** One chunk more: its bytes, its tier, the proxy and the log. */
  ghost predicate Advanced(q: Proxy, q': Proxy, w: World, k: ChunkKey, x: Outside, data: bytes, tier: Tier,
                           log: seq<ChunkKey>, log': seq<ChunkKey>) {
    && HasChunk(w.objects, k) && data == Chunk(w.objects, k) && q' == Resolved(q, w, k, k !in x.unreadable)
    && tier == TierOf(q, k, k !in x.unreadable) && (tier == Backend ==> k in x.backend) && log' == log + [k]
  }

  lemma LandsLast(before: seq<Event>, ks: seq<ChunkKey>)
    ensures ks == [] ==> before + Lands(ks) == before
    ensures ks != [] ==> before + Lands(ks) == (before + Lands(ks[..|ks| - 1])) + [Land(ks[|ks| - 1])]
  {
  }

  lemma LandIsTierless(p: Proxy, w: World, events: seq<Event>, k: ChunkKey)
    requires Real(w, events) && HasChunk(w.objects, k)
    ensures Real(w, events + [Land(k)]) && TiersOf(p, w, events + [Land(k)]) == TiersOf(p, w, events)
  {
    FromSnoc(p, w, events, Land(k));
  }

  /** A write that completes is no chunk that comes from anywhere. */
  lemma {:induction false} NoMoreTiers(p: Proxy, w: World, before: seq<Event>, ks: seq<ChunkKey>)
    requires Real(w, before) && AllThere(w.objects, ks)
    ensures Real(w, before + Lands(ks)) && TiersOf(p, w, before + Lands(ks)) == TiersOf(p, w, before)
    decreases |ks|
  {
    LandsLast(before, ks);
    if ks != [] {
      NoMoreTiers(p, w, before, ks[..|ks| - 1]);
      LandIsTierless(p, w, before + Lands(ks[..|ks| - 1]), ks[|ks| - 1]);
    }
  }

  /** The writes before the n-th chunk have completed. */
  lemma NowReady(p: Proxy, q: Proxy, w: World, r: Request, x: Outside, n: nat)
    requires r.first + n <= TWO_64 && Real(w, Steps(r, x, n)) && AllThere(w.objects, LandsBefore(x, n))
    requires q == RunFrom(p, w, Steps(r, x, n))
    ensures Real(w, Ready(r, x, n))
    ensures RunFrom(p, w, Ready(r, x, n)) == AllLanded(q, w, LandsBefore(x, n))
    ensures TiersOf(p, w, Ready(r, x, n)) == TiersOf(p, w, Steps(r, x, n))
  {
    LandsAreReal(w, LandsBefore(x, n));
    FromConcat(p, w, Steps(r, x, n), Lands(LandsBefore(x, n)));
    NoMoreTiers(p, w, Steps(r, x, n), LandsBefore(x, n));
  }

  lemma ChunksSnoc(objects: Store, key: ObjectKey, first: nat, chunks: seq<bytes>, data: bytes)
    requires AreChunks(objects, key, first, chunks) && IsChunkAt(objects, key, first + |chunks|, data)
    ensures AreChunks(objects, key, first, chunks + [data])
  {
    forall i | 0 <= i <= |chunks| ensures IsChunkAt(objects, key, first + i, (chunks + [data])[i]) {
      if i < |chunks| { assert IsChunkAt(objects, key, first + i, chunks[i]); }
    }
  }

  lemma DeliveredSnoc(r: Request, tiers: seq<Tier>, tier: Tier, x: Outside)
    requires r.first + |tiers| < TWO_64 && Delivered(r, tiers, x)
    requires tier == Backend ==> Nth(r, |tiers|) in x.backend
    ensures Delivered(r, tiers + [tier], x)
  {
  }

  /** The step of the n-th chunk, on states and tiers. */
  lemma StepsNext(p: Proxy, q: Proxy, q': Proxy, w: World, r: Request, x: Outside, n: nat,
                  tiers: seq<Tier>, tier: Tier)
    requires r.first + n < TWO_64 && Real(w, Ready(r, x, n)) && HasChunk(w.objects, Nth(r, n))
    requires q == RunFrom(p, w, Ready(r, x, n)) && tiers == TiersOf(p, w, Ready(r, x, n))
    requires q' == Resolved(q, w, Nth(r, n), Nth(r, n) !in x.unreadable)
    requires tier == TierOf(q, Nth(r, n), Nth(r, n) !in x.unreadable)
    ensures Real(w, Steps(r, x, n + 1)) && q' == RunFrom(p, w, Steps(r, x, n + 1))
    ensures tiers + [tier] == TiersOf(p, w, Steps(r, x, n + 1))
  {
    FromSnoc(p, w, Ready(r, x, n), Turn(r, x, n));
  }

  lemma StandsNext(p: Proxy, q0: Proxy, q: Proxy, q': Proxy, w: World, r: Request, x: Outside,
                   n: nat, tiers: seq<Tier>, tier: Tier)
    requires r.first + n < TWO_64 && HasChunk(w.objects, Nth(r, n)) && Stands(p, q0, w, r, x, n, tiers)
    requires TrueDisk(w) && AllThere(w.objects, LandsBefore(x, n)) && q == AllLanded(q0, w, LandsBefore(x, n))
    requires q' == Resolved(q, w, Nth(r, n), Nth(r, n) !in x.unreadable)
    requires tier == TierOf(q, Nth(r, n), Nth(r, n) !in x.unreadable)
    ensures Stands(p, q', w, r, x, n + 1, tiers + [tier])
  {
    NowReady(p, q0, w, r, x, n);
    StepsNext(p, q, q', w, r, x, n, tiers, tier);
  }

  lemma HoldsNext(w: World, r: Request, x: Outside, n: nat, chunks: seq<bytes>, data: bytes, tiers: seq<Tier>,
                  tier: Tier, was: seq<ChunkKey>, log: seq<ChunkKey>)
    requires Holds(w, r, x, n, chunks, tiers, was, log) && n < r.n
    requires HasChunk(w.objects, Nth(r, n)) && data == Chunk(w.objects, Nth(r, n))
    requires tier == Backend ==> Nth(r, n) in x.backend
    ensures Holds(w, r, x, n + 1, chunks + [data], tiers + [tier], was, log + [Nth(r, n)])
  {
    DeliveredSnoc(r, tiers, tier, x);
    ChunksSnoc(w.objects, r.key, r.first, chunks, data);
  }

  lemma OneMoreChunk(p: Proxy, q0: Proxy, q: Proxy, q': Proxy, w: World, r: Request, x: Outside,
                     n: nat, chunks: seq<bytes>, data: bytes, tiers: seq<Tier>, tier: Tier,
                     was: seq<ChunkKey>, log: seq<ChunkKey>, log': seq<ChunkKey>)
    requires Progress(p, q0, w, r, x, n, chunks, tiers, was, log) && n < r.n
    requires TrueDisk(w) && AllThere(w.objects, LandsBefore(x, n)) && q == AllLanded(q0, w, LandsBefore(x, n))
    requires Advanced(q, q', w, Nth(r, n), x, data, tier, log, log')
    ensures Progress(p, q', w, r, x, n + 1, chunks + [data], tiers + [tier], was, log')
  {
    StandsNext(p, q0, q, q', w, r, x, n, tiers, tier);
    HoldsNext(w, r, x, n, chunks, data, tiers, tier, was, log);
  }

  lemma NoMoreChunks(p: Proxy, q0: Proxy, q: Proxy, w: World, r: Request, x: Outside, n: nat,
                     chunks: seq<bytes>, tiers: seq<Tier>, was: seq<ChunkKey>, log: seq<ChunkKey>)
    requires Progress(p, q0, w, r, x, n, chunks, tiers, was, log) && n < r.n
    requires TrueDisk(w) && AllThere(w.objects, LandsBefore(x, n)) && q == AllLanded(q0, w, LandsBefore(x, n))
    requires !Resolvable(q, x, Nth(r, n))
    ensures StoppedAt(p, q, w, r, x, n, was, log)
  {
    NowReady(p, q0, w, r, x, n);
  }

  // ---------------------------------------------------------------- the answer

  /** The chunks of the range start .. end. */
  function RangeRequest(key: ObjectKey, start: nat, end: nat): Request
    requires start <= end
  {
    ChunkOfMonotone(start, end);
    Request(key, ChunkOf(start), ChunkOf(end) - ChunkOf(start) + 1)
  }

  lemma RangeIsLegal(objects: Store, key: ObjectKey, start: nat, end: nat)
    requires key in objects && start <= end < |objects[key]| <= MAX_INT64
    ensures Legal(objects, RangeRequest(key, start, end)) && ChunkOf(end) < TWO_64 - 1
  {
    ChunkOfMonotone(start, end);
    ChunkOfMonotone(end, end);
  }

  datatype Response =
    | BadGateway
    | NotSatisfiable(size: int)
    | PartialContent(start: int, end: int, size: int, tier: Tier, body: bytes, bytesServed: int)

  /** The response has the bytes of the range, as far as the client takes them. */
  predicate Carries(objects: Store, response: Response, key: ObjectKey, start: nat, end: nat, accepts: nat)
    requires key in objects && start <= end < |objects[key]|
  {
    && response.PartialContent?
    && response.start == start && response.end == end && response.size == |objects[key]|
    && response.body == objects[key][start..end + 1][..Min(accepts, end - start + 1)]
    && response.bytesServed == |response.body|
  }

  /** A satisfiable range is answered with exactly its bytes, as far as the client takes them,
      and the slowest tier's name if every chunk can be resolved when its turn comes; with 502
      if one cannot. The proxy went from p to q and the predictor's log from was to log. */
  ghost predicate Answered(p: Proxy, q: Proxy, w: World, response: Response, key: ObjectKey, start: nat, end: nat,
                           x: Outside, was: seq<ChunkKey>, log: seq<ChunkKey>)
    requires key in w.objects && start <= end < |w.objects[key]| <= MAX_INT64
  {
    RangeIsLegal(w.objects, key, start, end);
    var r := RangeRequest(key, start, end);
    if response.PartialContent? then
      && Carries(w.objects, response, key, start, end, x.accepts)
      && Real(w, Steps(r, x, r.n)) && q == RunFrom(p, w, Steps(r, x, r.n)) && log == Recorded(was, r, r.n)
      && var tiers := TiersOf(p, w, Steps(r, x, r.n));
         && |tiers| == r.n && Delivered(r, tiers, x)
         && response.tier == (if Backend in tiers then Backend else if Inflight in tiers then Inflight
                              else if Cold in tiers then Cold else Hot)
    else
      response.BadGateway? && exists n: nat :: StoppedAt(p, q, w, r, x, n, was, log)
  }

  lemma AllResolved(p: Proxy, q: Proxy, w: World, response: Response, key: ObjectKey, start: nat, end: nat, x: Outside,
                    chunks: seq<bytes>, tiers: seq<Tier>, was: seq<ChunkKey>, log: seq<ChunkKey>)
    requires key in w.objects && start <= end < |w.objects[key]| <= MAX_INT64
    requires var r := RangeRequest(key, start, end); Progress(p, q, w, r, x, r.n, chunks, tiers, was, log)
    requires Carries(w.objects, response, key, start, end, x.accepts) && response.tier == SlowestOf(tiers)
    ensures Answered(p, q, w, response, key, start, end, x, was, log)
  {
    RangeIsLegal(w.objects, key, start, end);
    SlowestIsTheMaximum(tiers);
  }

  lemma NotResolved(p: Proxy, q: Proxy, w: World, key: ObjectKey, start: nat, end: nat, x: Outside, n: nat,
                    was: seq<ChunkKey>, log: seq<ChunkKey>)
    requires key in w.objects && start <= end < |w.objects[key]| <= MAX_INT64
    requires StoppedAt(p, q, w, RangeRequest(key, start, end), x, n, was, log)
    ensures Answered(p, q, w, BadGateway, key, start, end, x, was, log)
  {
    RangeIsLegal(w.objects, key, start, end);
  }
}
