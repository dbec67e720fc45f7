/** The request handler as it is written, for one request after another while background
    writes complete: resolveChunk through memory, disk and backend, and the loops of ServeHTTP.
    Proved against Serving. */
module HandlerImpl {
  import opened Basics
  import opened Fnv
  import opened LruSpec
  import opened HotSpec
  import opened HotCacheImpl
  import opened RangeHeader
  import opened Assembly
  import opened Sequential
  import opened SequentialRequests
  import opened Serving

  /** A hot chunk has its true bytes, and asking for it only moves it to the front. */
  lemma HotHit(w: World, p: Proxy, k: ChunkKey, readable: bool)
    requires Good(w.objects, p) && Resident(p.hot, k)
    ensures HasChunk(w.objects, k) && ListOf(p.hot, k)[Find(ListOf(p.hot, k), k)].val == Chunk(w.objects, k)
    ensures Resolved(p, w, k, readable) == p.(hot := Got(p.hot, k))
    ensures Good(w.objects, p.(hot := Got(p.hot, k)))
  {
    var l := ListOf(p.hot, k);
    var e := l[Find(l, k)];
    assert e in p.hot[ShardOf(k)] && EntryGood(w.objects, e) && e.key == k;
    ResolvedIsDemand(w, p, k, readable);
  }

  lemma HotMiss(st: Shards<bytes>, k: ChunkKey)
    requires !Resident(st, k)
    ensures Got(st, k) == st
  {
  }

  lemma ColdIsResolved(p: Proxy, w: World, k: ChunkKey)
    requires HasChunk(w.objects, k) && !Resident(p.hot, k) && k in p.cold
    ensures Resolved(p, w, k, true) == Cached(p, w.capacity, Node(k, p.cold[k]))
  {
  }

  lemma FetchedIsResolved(p: Proxy, w: World, k: ChunkKey, readable: bool)
    requires HasChunk(w.objects, k) && !Resident(p.hot, k) && (k !in p.cold || !readable)
    ensures Resolved(p, w, k, readable) ==
            Cached(p.(gets := p.gets + [k]), w.capacity, Node(k, Chunk(w.objects, k)))
  {
  }

  lemma TakenOut(l: seq<Entry<bytes>>, i: nat)
    requires i < |l|
    ensures l[i] in multiset(l) && multiset(l[..i] + l[i + 1..]) == multiset(l) - multiset{l[i]}
  {
    assert l == l[..i] + [l[i]] + l[i + 1..];
  }

  lemma Appended(l: seq<Entry<bytes>>, more: seq<Entry<bytes>>)
    ensures multiset(l + more) == multiset(l) + multiset(more)
  {
  }

  class Handler {
    ghost const w: World
    const hot: HotCache
    var cold: map<ChunkKey, bytes>
    var pending: seq<Entry<bytes>>   // background writes that onEvict started, and that have not completed
    ghost var gets: seq<ChunkKey>
    var tracked: seq<ChunkKey>       // the calls of Tracker.Record, in order

    ghost predicate Valid()
      reads `cold, `pending, `gets, hot, hot.shards
    {
      hot.Valid() && hot.capacityBytes == w.capacity && TrueDisk(w) && Good(w.objects, View())
    }

    /** The proxy as a value. */
    ghost function View(): Proxy
      requires |hot.shards| == NUM_SHARDS
      reads `cold, `pending, `gets, hot, hot.shards
    {
      Proxy(hot.State(), cold, multiset(pending), gets)
    }

    /** The disk is as it was left; memory starts empty. */
    constructor (ghost objects: Store, disk: map<ChunkKey, bytes>, capacityBytes: int)
      requires TrueDisk(World(objects, disk, capacityBytes))
      ensures Valid() && w == World(objects, disk, capacityBytes)
      ensures View() == Start(w) && tracked == [] && fresh(hot) && fresh(hot.shards)
    {
      this.w := World(objects, disk, capacityBytes);
      hot := new HotCache(capacityBytes);
      cold, pending, gets, tracked := disk, [], [], [];
    }

    /** HotCache.Put, and the entries that its callback was called with. */
    method PutHot(k: ChunkKey, data: bytes) returns (started: seq<Entry<bytes>>)
      requires hot.Valid()
      modifies hot.shards
      ensures hot.Valid() && hot.State() == Stored(old(hot.State()), hot.capacityBytes, Node(k, data))
      ensures started == Evicted(old(hot.State()), hot.capacityBytes, Node(k, data))
    {
      var i := hot.ShardFor(k);
      var before := hot.shards[i].evicted;
      hot.Put(k, data);
      started := hot.shards[i].evicted[|before|..];
    }

    /** Put, and for each victim a background write starts. */
    method Cache(k: ChunkKey, data: bytes)
      requires Valid() && EntryGood(w.objects, Node(k, data))
      modifies `pending, hot.shards
      ensures Valid()
      ensures View() == Cached(old(View()), w.capacity, Node(k, data))
    {
      ghost var p := View();
      ghost var q := Cached(p, w.capacity, Node(k, data));
      CachedGood(w, p, Node(k, data));
      var started := PutHot(k, data);
      Appended(pending, started);
      pending := pending + started;
      assert View() == q;
    }

    /** Any one of the background writes completes. */
    method CompleteWrite(i: nat)
      requires Valid() && i < |pending|
      modifies `cold, `pending
      ensures Valid() && HasChunk(w.objects, old(pending)[i].key)
      ensures pending == old(pending)[..i] + old(pending)[i + 1..]
      ensures cold == old(cold)[old(pending)[i].key := old(pending)[i].val]
      ensures View() == Apply(old(View()), w, Land(old(pending)[i].key))
    {
      ghost var p := View();
      var e := pending[i];
      LandedGood(w.objects, p, e);
      TakenOut(pending, i);
      cold := cold[e.key := e.val];
      pending := pending[..i] + pending[i + 1..];
      assert View() == Landed(p, e);
    }

    /** One write of the chunk completes, if one is pending. */
    method CompleteWriteOf(k: ChunkKey)
      requires Valid() && HasChunk(w.objects, k)
      modifies `cold, `pending
      ensures Valid() && View() == Apply(old(View()), w, Land(k))
    {
      for i := 0 to |pending|
        invariant Valid() && pending == old(pending) && cold == old(cold)
        invariant forall j | 0 <= j < i :: pending[j].key != k
      {
        if pending[i].key == k {
          CompleteWrite(i);
          return;
        }
      }
    }

    /** Background writes of these chunks complete, those that are pending. */
    method CompleteWrites(ks: seq<ChunkKey>)
      requires Valid() && AllThere(w.objects, ks)
      modifies `cold, `pending
      ensures Valid() && View() == AllLanded(old(View()), w, ks)
    {
      ghost var p := View();
      for i := 0 to |ks|
        invariant Valid() && AllThere(w.objects, ks[..i]) && View() == AllLanded(p, w, ks[..i])
      {
        LandsSnoc(p, w, ks, i);
        CompleteWriteOf(ks[i]);
      }
      assert ks[..|ks|] == ks;
    }

    method ResolveChunk(k: ChunkKey, x: Outside)
      returns (data: bytes, tier: Tier, ok: bool)
      requires Valid() && Honest(w.objects, x)
      modifies `pending, `gets, hot, hot.shards
      ensures Valid() && tier == TierOf(old(View()), k, k !in x.unreadable)
      ensures var (isHot, onDisk) := (Resident(old(hot.State()), k), k in old(cold) && k !in x.unreadable);
              && tier == (if isHot then Hot else if onDisk then Cold else Backend)
              && (ok <==> isHot || onDisk || k in x.backend)
      ensures ok == Resolvable(old(View()), x, k)
      ensures ok ==> HasChunk(w.objects, k) && data == Chunk(w.objects, k)
      ensures View() == if ok then Resolved(old(View()), w, k, k !in x.unreadable) else old(View())
    {
      ghost var was := View();
      if Resident(was.hot, k) { HotHit(w, was, k, k !in x.unreadable); } else { HotMiss(was.hot, k); }
      data, ok := hot.Get(k);
      if ok {
        return data, Hot, true;
      }
      assert View() == was;
      data, tier, ok := ResolveMiss(k, x);
    }

    /** ... from the miss in memory on. */
    method ResolveMiss(k: ChunkKey, x: Outside)
      returns (data: bytes, tier: Tier, ok: bool)
      requires Valid() && Honest(w.objects, x) && !Resident(View().hot, k)
      modifies `pending, `gets, hot.shards
      ensures Valid() && tier == TierOf(old(View()), k, k !in x.unreadable)
      ensures ok == Resolvable(old(View()), x, k)
      ensures ok ==> HasChunk(w.objects, k) && data == Chunk(w.objects, k)
      ensures View() == if ok then Resolved(old(View()), w, k, k !in x.unreadable) else old(View())
    {
      ghost var was := View();
      if k in cold && k !in x.unreadable {
        data := cold[k];
        ColdIsResolved(was, w, k);
        Cache(k, data);
        return data, Cold, true;
      }
      if k !in x.backend {
        return [], Backend, false;
      }
      data := x.backend[k];
      FetchedIsResolved(was, w, k, k !in x.unreadable);
      gets := gets + [k];
      assert View() == was.(gets := was.gets + [k]);
      Cache(k, data);
      return data, Backend, true;
    }

    /** A chunk of the request is resolved, and the predictor told of it. */
    method ResolveNext(k: ChunkKey, x: Outside)
      returns (data: bytes, tier: Tier, ok: bool)
      requires Valid() && Honest(w.objects, x)
      modifies `pending, `gets, `tracked, hot, hot.shards
      ensures Valid() && ok == Resolvable(old(View()), x, k)
      ensures !ok ==> View() == old(View()) && tracked == old(tracked)
      ensures ok ==> Advanced(old(View()), View(), w, k, x, data, tier, old(tracked), tracked)
    {
      data, tier, ok := ResolveChunk(k, x);
      if ok { tracked := tracked + [k]; }
    }

    /** One round of the chunk loop, and the writes that complete before it. */
    method ResolveRound(r: Request, x: Outside, before: seq<bytes>, slowest: Tier,
                        ghost p: Proxy, ghost was: seq<ChunkKey>, ghost tiersBefore: seq<Tier>)
      returns (chunks: seq<bytes>, cacheTier: Tier, ok: bool, ghost tiers: seq<Tier>)
      requires Valid() && Honest(w.objects, x) && |before| < r.n && slowest == SlowestOf(tiersBefore)
      requires Progress(p, View(), w, r, x, |before|, before, tiersBefore, was, tracked)
      modifies `cold, `pending, `gets, `tracked, hot, hot.shards
      ensures Valid() && |chunks| == |before| + (if ok then 1 else 0) && cacheTier == SlowestOf(tiers)
      ensures ok ==> Progress(p, View(), w, r, x, |chunks|, chunks, tiers, was, tracked)
      ensures !ok ==> StoppedAt(p, View(), w, r, x, |chunks|, was, tracked)
    {
      ghost var q0, log := View(), tracked;
      assert AllThere(w.objects, LandsBefore(x, |before|));
      CompleteWrites(LandsBefore(x, |before|));
      ghost var q := View();
      var k := Nth(r, |before|);
      var data, tier;
      data, tier, ok := ResolveNext(k, x);
      if !ok {
        NoMoreChunks(p, q0, q, w, r, x, |before|, before, tiersBefore, was, log);
        return before, slowest, false, tiersBefore;
      }
      OneMoreChunk(p, q0, q, View(), w, r, x, |before|, before, data, tiersBefore, tier, was, log, tracked);
      SlowerSnoc(tiersBefore, tier);
      return before + [data], Slower(slowest, tier), true, tiersBefore + [tier];
    }

    /** The chunk loop: all chunks are resolved before the first byte is written. */
    method ResolveRange(r: Request, x: Outside)
      returns (chunks: seq<bytes>, cacheTier: Tier, ok: bool, ghost tiers: seq<Tier>)
      requires Valid() && Honest(w.objects, x) && Legal(w.objects, r) && r.first + r.n < TWO_64
      modifies `cold, `pending, `gets, `tracked, hot, hot.shards
      ensures Valid() && |chunks| <= r.n && (ok <==> |chunks| == r.n) && cacheTier == SlowestOf(tiers)
      ensures ok ==> Progress(old(View()), View(), w, r, x, r.n, chunks, tiers, old(tracked), tracked)
      ensures !ok ==> StoppedAt(old(View()), View(), w, r, x, |chunks|, old(tracked), tracked)
    {
      chunks, cacheTier, ok, tiers := [], Hot, true, [];
      ghost var p, was := View(), tracked;
      NoProgressYet(p, w, r, x, was);
      while ok && |chunks| < r.n
        invariant Valid() && |chunks| <= r.n && (!ok ==> |chunks| < r.n) && cacheTier == SlowestOf(tiers)
        invariant ok ==> Progress(p, View(), w, r, x, |chunks|, chunks, tiers, was, tracked)
        invariant !ok ==> StoppedAt(p, View(), w, r, x, |chunks|, was, tracked)
        decreases r.n - |chunks|, ok
      {
        chunks, cacheTier, ok, tiers := ResolveRound(r, x, chunks, cacheTier, p, was, tiers);
      }
    }

    /** ServeHTTP for a GET with a Range header; size is what the size lookup says. */
    method ServeRange(key: ObjectKey, header: string, size: Option<int>, x: Outside)
      returns (response: Response)
      requires Valid() && Honest(w.objects, x)
      requires size.Some? ==> key in w.objects && size.value == |w.objects[key]| <= MAX_INT64
      modifies `cold, `pending, `gets, `tracked, hot, hot.shards
      ensures Valid()
      ensures size.None? ==> response == BadGateway && View() == old(View()) && tracked == old(tracked)
      ensures size.Some? && ResolveByteRange(header, size.value).None? ==>
                response == NotSatisfiable(size.value) && View() == old(View()) && tracked == old(tracked)
      ensures size.Some? && ResolveByteRange(header, size.value).Some? ==>
                var (start, end) := ResolveByteRange(header, size.value).value;
                && 0 <= start <= end < size.value
                && Answered(old(View()), View(), w, response, key, start, end, x, old(tracked), tracked)
    {
      if size.None? {
        return BadGateway;
      }
      var range := ResolveByteRange(header, size.value);
      ResolvedIsInside(header, size.value);
      if range.None? {
        return NotSatisfiable(size.value);
      }
      response := ServeBytes(key, size.value, range.value.0, range.value.1, x);
    }

    /** ... from the resolved range on. */
    method ServeBytes(key: ObjectKey, size: int, start: nat, end: nat, x: Outside)
      returns (response: Response)
      requires Valid() && Honest(w.objects, x)
      requires key in w.objects && start <= end < size == |w.objects[key]| <= MAX_INT64
      modifies `cold, `pending, `gets, `tracked, hot, hot.shards
      ensures Valid()
      ensures Answered(old(View()), View(), w, response, key, start, end, x, old(tracked), tracked)
    {
      var chunks, cacheTier, ok := ResolveBytes(key, start, end, x);
      if !ok {
        return BadGateway;
      }
      var body, bytesServed, _, _ := WriteBody(w.objects, key, chunks, ChunkOf(start), start, end, x.accepts);
      response := PartialContent(start, end, size, cacheTier, body, bytesServed);
    }

    /** The chunks of a range. If one cannot be had, an error is the right answer, else the
        bytes with this tier's name. */
    method ResolveBytes(key: ObjectKey, start: nat, end: nat, x: Outside)
      returns (chunks: seq<bytes>, cacheTier: Tier, ok: bool)
      requires Valid() && Honest(w.objects, x)
      requires key in w.objects && start <= end < |w.objects[key]| <= MAX_INT64
      modifies `cold, `pending, `gets, `tracked, hot, hot.shards
      ensures Valid()
      ensures !ok ==> Answered(old(View()), View(), w, BadGateway, key, start, end, x, old(tracked), tracked)
      ensures ok ==> |chunks| == ChunkOf(end) - ChunkOf(start) + 1
      ensures ok ==> AreChunks(w.objects, key, ChunkOf(start), chunks)
      ensures ok ==>
                forall reply | Carries(w.objects, reply, key, start, end, x.accepts) && reply.tier == cacheTier ::
                  Answered(old(View()), View(), w, reply, key, start, end, x, old(tracked), tracked)
    {
      RangeIsLegal(w.objects, key, start, end);
      var r := RangeRequest(key, start, end);
      ghost var p, was := View(), tracked;
      ghost var tiers;
      chunks, cacheTier, ok, tiers := ResolveRange(r, x);
      ghost var q, log := View(), tracked;
      if !ok {
        NotResolved(p, q, w, key, start, end, x, |chunks|, was, log);
        return;
      }
      forall reply | Carries(w.objects, reply, key, start, end, x.accepts) && reply.tier == cacheTier
        ensures Answered(p, q, w, reply, key, start, end, x, was, log) {
        AllResolved(p, q, w, reply, key, start, end, x, chunks, tiers, was, log);
      }
    }
  }
}
