/** The proxy serving one chunk after another: memory, disk and backend as values, with the
    background writes of evicted chunks delayed arbitrarily. When is a chunk fetched twice? */
module Sequential {
  import opened Basics
  import opened Fnv
  import opened LruSpec
  import opened HotSpec

  // What a run cannot change: the objects, what the disk holds from earlier, and the memory.
  datatype World = World(objects: Store, disk: map<ChunkKey, bytes>, capacity: int)

  // gets is history: the chunks the backend was asked for and delivered, in order.
  // pending holds the background writes under way, each a goroutine of its own.
  datatype Proxy = Proxy(hot: Shards<bytes>, cold: map<ChunkKey, bytes>, pending: multiset<Entry<bytes>>,
                         gets: seq<ChunkKey>)

  datatype Tier = Hot | Cold | Inflight | Backend

  /** Memory starts empty, the disk as it was left. */
  function Start(w: World): Proxy {
    Proxy(Empty(), w.disk, multiset{}, [])
  }

  /** The entry of a chunk of the immutable objects. */
  function EntryOf(objects: Store, k: ChunkKey): Entry<bytes>
    requires HasChunk(objects, k)
  {
    Entry(k, |Chunk(objects, k)|, Chunk(objects, k))
  }

  /** Where the chunk comes from; a read of the disk that fails is a miss. */
  function TierOf(p: Proxy, k: ChunkKey, readable: bool): Tier {
    if Resident(p.hot, k) then Hot else if k in p.cold && readable then Cold else Backend
  }

  /** Put into the hot cache; the victims' writes start. */
  function Cached(p: Proxy, capacity: int, e: Entry<bytes>): Proxy {
    p.(hot := Stored(p.hot, capacity, e), pending := p.pending + multiset(Evicted(p.hot, capacity, e)))
  }

  /** The proxy after a chunk was resolved. */
  function Resolved(p: Proxy, w: World, k: ChunkKey, readable: bool): Proxy
    requires HasChunk(w.objects, k)
  {
    var tier := TierOf(p, k, readable);
    if tier == Hot then p.(hot := Got(p.hot, k))
    else if tier == Cold then Cached(p, w.capacity, Entry(k, |p.cold[k]|, p.cold[k]))
    else Cached(p, w.capacity, EntryOf(w.objects, k)).(gets := p.gets + [k])
  }

  /** One pending write of the entry completes, if there is any. */
  function Landed(p: Proxy, e: Entry<bytes>): Proxy {
    if e in p.pending then p.(cold := p.cold[e.key := e.val], pending := p.pending - multiset{e}) else p
  }

  /** A landing takes exactly one of the writes of its entry, if there is one, to the disk. */
  lemma LandedIs(p: Proxy, e: Entry<bytes>, x: Entry<bytes>)
    ensures var (q, n) := (Landed(p, e), p.pending[e]);
            && q.pending[x] == p.pending[x] - (if x == e && n > 0 then 1 else 0)
            && q.cold == (if n > 0 then p.cold[e.key := e.val] else p.cold)
            && q.hot == p.hot && q.gets == p.gets
  {
  }

  // ---------------------------------------------------------------- runs

  /** A chunk is asked for, or one pending write of it completes: any write at any time. */
  datatype Event = Ask(k: ChunkKey, readable: bool) | Land(k: ChunkKey)

  predicate TrueDisk(w: World) {
    forall k | k in w.disk :: HasChunk(w.objects, k) && w.disk[k] == Chunk(w.objects, k)
  }

  /** The events are about chunks that there are, and the disk holds true chunks. */
  predicate Real(w: World, events: seq<Event>) {
    TrueDisk(w) && forall a | a in events :: HasChunk(w.objects, a.k)
  }

  predicate Asked(events: seq<Event>, k: ChunkKey) {
    Ask(k, true) in events || Ask(k, false) in events
  }

  function Apply(p: Proxy, w: World, a: Event): Proxy
    requires HasChunk(w.objects, a.k)
  {
    if a.Ask? then Resolved(p, w, a.k, a.readable) else Landed(p, EntryOf(w.objects, a.k))
  }

  function Run(w: World, events: seq<Event>): Proxy
    requires Real(w, events)
  {
    if events == [] then Start(w)
    else Apply(Run(w, events[..|events| - 1]), w, events[|events| - 1])
  }

  /** What the hot cache sees of the run. */
  function Trace(w: World, events: seq<Event>): seq<Entry<bytes>>
    requires Real(w, events)
  {
    if events == [] then [] else Traced(w, Trace(w, events[..|events| - 1]), events[|events| - 1])
  }

  function Traced(w: World, t: seq<Entry<bytes>>, a: Event): seq<Entry<bytes>>
    requires HasChunk(w.objects, a.k)
  {
    if a.Ask? then t + [EntryOf(w.objects, a.k)] else t
  }

  /** Is the chunk hot after these events? A question about the LRU lists alone. */
  predicate HotAfter(w: World, events: seq<Event>, k: ChunkKey)
    requires Real(w, events)
  {
    Resident(AfterAll(w.capacity, Trace(w, events)), k)
  }

  lemma RunSnoc(w: World, events: seq<Event>, a: Event)
    requires Real(w, events + [a])
    ensures Real(w, events) && HasChunk(w.objects, a.k)
    ensures Run(w, events + [a]) == Apply(Run(w, events), w, a)
    ensures Trace(w, events + [a]) == Traced(w, Trace(w, events), a)
  {
    var all := events + [a];
    assert all[..|all| - 1] == events && all[|all| - 1] == a && a in all;
    forall b | b in events ensures HasChunk(w.objects, b.k) { assert b in all; }
  }

  lemma AskedSnoc(events: seq<Event>, a: Event, k: ChunkKey)
    ensures Asked(events + [a], k) <==> Asked(events, k) || (a.Ask? && a.k == k)
  {
  }

  lemma {:induction false} TraceHolds(w: World, events: seq<Event>)
    requires Real(w, events)
    ensures forall e | e in Trace(w, events) :: HasChunk(w.objects, e.key) && e == EntryOf(w.objects, e.key)
                                                      && Asked(events, e.key)
    ensures forall k | Asked(events, k) :: HasChunk(w.objects, k) && EntryOf(w.objects, k) in Trace(w, events)
    ensures Consistent(Trace(w, events))
  {
    if events != [] {
      var t, a := events[..|events| - 1], events[|events| - 1];
      assert events == t + [a];
      TraceHolds(w, t);
      RunSnoc(w, t, a);
      forall k | Asked(events, k) ensures HasChunk(w.objects, k) && EntryOf(w.objects, k) in Trace(w, events) {
        AskedSnoc(t, a, k);
      }
    }
  }

  // ---------------------------------------------------------------- what a run keeps

  predicate EntryGood(objects: Store, e: Entry<bytes>) {
    HasChunk(objects, e.key) && e == EntryOf(objects, e.key)
  }

  /** All the bytes anywhere are the true chunks, and were asked for. */
  ghost predicate Good(objects: Store, p: Proxy) {
    && (forall i, e | 0 <= i < NUM_SHARDS && e in p.hot[i] :: EntryGood(objects, e))
    && (forall e | e in p.pending :: EntryGood(objects, e))
    && (forall k | k in p.cold :: HasChunk(objects, k) && p.cold[k] == Chunk(objects, k))
  }

  lemma LandedGood(objects: Store, p: Proxy, e: Entry<bytes>)
    requires Good(objects, p)
    ensures Good(objects, Landed(p, e))
  {
  }

  lemma CachedGood(w: World, p: Proxy, e: Entry<bytes>)
    requires Good(w.objects, p) && EntryGood(w.objects, e)
    ensures Good(w.objects, Cached(p, w.capacity, e))
  {
    ListMembers(ListOf(p.hot, e.key), PerShard(w.capacity), e);
    PutMembers(ListOf(p.hot, e.key), PerShard(w.capacity), e);
  }

  /** A resolved chunk is an access to the hot cache, with the chunk's one entry. */
  lemma ResolvedIsDemand(w: World, p: Proxy, k: ChunkKey, readable: bool)
    requires Good(w.objects, p) && HasChunk(w.objects, k)
    ensures Resolved(p, w, k, readable).hot == Demand(p.hot, w.capacity, EntryOf(w.objects, k))
    ensures Resolved(p, w, k, readable).pending ==
            if Resident(p.hot, k) then p.pending
            else p.pending + multiset(Evicted(p.hot, w.capacity, EntryOf(w.objects, k)))
    ensures Good(w.objects, Resolved(p, w, k, readable))
  {
    if Resident(p.hot, k) {
      var l := ListOf(p.hot, k);
      HasIffKey(l, k);
      ListMembers(l, 0, l[Find(l, k)]);
    } else {
      CachedGood(w, p, EntryOf(w.objects, k));
    }
  }

  /** The hot cache of a run is the LRU cache of its trace; everything stored is right. */
  lemma {:induction false} RunIsLru(w: World, events: seq<Event>)
    requires Real(w, events)
    ensures Good(w.objects, Run(w, events))
    ensures Run(w, events).hot == AfterAll(w.capacity, Trace(w, events))
  {
    if events != [] {
      var t, a := events[..|events| - 1], events[|events| - 1];
      assert events == t + [a];
      RunIsLru(w, t);
      RunSnoc(w, t, a);
      var p := Run(w, t);
      if a.Ask? {
        ResolvedIsDemand(w, p, a.k, a.readable);
      } else {
        LandedGood(w.objects, p, EntryOf(w.objects, a.k));
      }
    }
  }

  // ---------------------------------------------------------------- where an asked chunk is

  ghost predicate AwaitsWrite(p: Proxy, k: ChunkKey) {
    exists e | e in p.pending :: e.key == k
  }

  ghost predicate Somewhere(p: Proxy, k: ChunkKey) {
    Resident(p.hot, k) || k in p.cold || AwaitsWrite(p, k)
  }

  lemma DemandResident(st: Shards<bytes>, capacity: int, e: Entry<bytes>, k: ChunkKey)
    ensures Resident(Demand(st, capacity, e), e.key)
    ensures Resident(st, k) && Resident(st, e.key) ==> Resident(Demand(st, capacity, e), k)
    ensures Resident(st, k) && !Resident(st, e.key) ==>
              Resident(Demand(st, capacity, e), k) || exists x | x in Evicted(st, capacity, e) :: x.key == k
    ensures ShardOf(k) != ShardOf(e.key) ==> ListOf(Demand(st, capacity, e), k) == ListOf(st, k)
  {
    var l, c := ListOf(st, e.key), PerShard(capacity);
    ListMembers(l, c, e);
    PutMembers(l, c, e);
    var after := if Has(l, e.key) then AfterGet(l, e.key) else AfterPut(l, c, e);
    HasIffKey(after, e.key);
    HasIffKey(after, k);
    HasIffKey(l, k);
    if Has(l, e.key) { assert AfterGet(l, e.key)[0] in after; } else { assert e in after; }
  }

  lemma HotKeeps(w: World, p: Proxy, a: Event, x: ChunkKey)
    requires Good(w.objects, p) && a.Ask? && HasChunk(w.objects, a.k) && (Resident(p.hot, x) || x == a.k)
    ensures Somewhere(Apply(p, w, a), x)
  {
    var q, e := Apply(p, w, a), EntryOf(w.objects, a.k);
    ResolvedIsDemand(w, p, a.k, a.readable);
    DemandResident(p.hot, w.capacity, e, x);
    if !Resident(q.hot, x) {
      var y :| y in Evicted(p.hot, w.capacity, e) && y.key == x;
      assert y in multiset(Evicted(p.hot, w.capacity, e));
      assert y in q.pending;
    }
  }

  lemma ResolvedKeeps(w: World, p: Proxy, a: Event, x: ChunkKey)
    requires Good(w.objects, p) && a.Ask? && HasChunk(w.objects, a.k) && (Somewhere(p, x) || x == a.k)
    ensures Somewhere(Apply(p, w, a), x)
  {
    if Resident(p.hot, x) || x == a.k {
      HotKeeps(w, p, a, x);
    } else if AwaitsWrite(p, x) {
      var y :| y in p.pending && y.key == x;
      assert y in Apply(p, w, a).pending;
    }
  }

  lemma LandedKeeps(objects: Store, p: Proxy, e: Entry<bytes>, x: ChunkKey)
    ensures Somewhere(Landed(p, e), x) <==> Somewhere(p, x)
    ensures AwaitsWrite(Landed(p, e), x) ==> AwaitsWrite(p, x)
    ensures x in Landed(p, e).cold <==> x in p.cold || (x == e.key && e in p.pending)
  {
    var q := Landed(p, e);
    if AwaitsWrite(p, x) {
      var y :| y in p.pending && y.key == x;
      if y != e { assert y in q.pending; }
    }
    if AwaitsWrite(q, x) {
      var y :| y in q.pending && y.key == x;
      assert y in p.pending;
    }
  }

  /** Nothing that was asked for is lost. */
  lemma {:induction false} AskedIsSomewhere(w: World, events: seq<Event>, k: ChunkKey)
    requires Real(w, events) && Asked(events, k)
    ensures Somewhere(Run(w, events), k)
  {
    if events != [] {
      var t, a := events[..|events| - 1], events[|events| - 1];
      assert events == t + [a];
      RunIsLru(w, t);
      RunSnoc(w, t, a);
      AskedSnoc(t, a, k);
      if Asked(t, k) { AskedIsSomewhere(w, t, k); }
      var p := Run(w, t);
      if a.Ask? {
        ResolvedKeeps(w, p, a, k);
      } else {
        LandedKeeps(w.objects, p, EntryOf(w.objects, a.k), k);
      }
    }
  }

  lemma HotNotNew(w: World, p: Proxy, a: Event, x: ChunkKey)
    requires Good(w.objects, p) && a.Ask? && HasChunk(w.objects, a.k) && x != a.k
    requires Resident(Apply(p, w, a).hot, x)
    ensures Resident(p.hot, x)
  {
    ResolvedIsDemand(w, p, a.k, a.readable);
    if !Resident(p.hot, x) { StaysOut(p.hot, w.capacity, EntryOf(w.objects, a.k), x); }
  }

  lemma PendingNotNew(w: World, p: Proxy, a: Event, x: ChunkKey)
    requires Good(w.objects, p) && a.Ask? && HasChunk(w.objects, a.k)
    requires AwaitsWrite(Apply(p, w, a), x) && !AwaitsWrite(p, x)
    ensures !Resident(p.hot, a.k)
    ensures exists y | y in Evicted(p.hot, w.capacity, EntryOf(w.objects, a.k)) :: y.key == x && y in ListOf(p.hot, a.k)
  {
    ResolvedIsDemand(w, p, a.k, a.readable);
    var victims := Evicted(p.hot, w.capacity, EntryOf(w.objects, a.k));
    PutMembers(ListOf(p.hot, a.k), PerShard(w.capacity), EntryOf(w.objects, a.k));
    var y :| y in Apply(p, w, a).pending && y.key == x;
    assert y in multiset(victims);
    assert y in victims;
  }

  /** Only chunks that the backend delivered, or that were on the disk, are anywhere. */
  lemma {:induction false} SomewhereWasGot(w: World, events: seq<Event>, k: ChunkKey)
    requires Real(w, events) && Somewhere(Run(w, events), k)
    ensures k in Run(w, events).gets || k in w.disk
  {
    if events == [] {
      HasIffKey(ListOf(Start(w).hot, k), k);
    } else {
      var t, a := events[..|events| - 1], events[|events| - 1];
      assert events == t + [a];
      RunSnoc(w, t, a);
      var p := Run(w, t);
      if a.Land? {
        LandedKeeps(w.objects, p, EntryOf(w.objects, a.k), k);
      } else if k != a.k {
        NotNew(w, t, a, k);
      }
      if Somewhere(p, k) { SomewhereWasGot(w, t, k); }
    }
  }

  lemma NotNew(w: World, events: seq<Event>, a: Event, k: ChunkKey)
    requires Real(w, events) && a.Ask? && HasChunk(w.objects, a.k) && k != a.k
    requires Somewhere(Apply(Run(w, events), w, a), k)
    ensures Somewhere(Run(w, events), k)
  {
    var p := Run(w, events);
    RunIsLru(w, events);
    if Resident(Apply(p, w, a).hot, k) {
      HotNotNew(w, p, a, k);
    } else if !(k in p.cold || AwaitsWrite(p, k)) {
      PendingNotNew(w, p, a, k);
      var y :| y in ListOf(p.hot, a.k) && y.key == k;
      OwnShard(w, events, ShardOf(a.k), y);
      HasIffKey(ListOf(p.hot, k), k);
    }
  }

  lemma GotNow(w: World, p: Proxy, a: Event, k: ChunkKey)
    requires HasChunk(w.objects, a.k) && k in Apply(p, w, a).gets && k !in p.gets
    ensures a.Ask? && a.k == k
  {
  }

  lemma {:induction false} GotWasAsked(w: World, events: seq<Event>, k: ChunkKey)
    requires Real(w, events) && k in Run(w, events).gets
    ensures Asked(events, k)
  {
    if events != [] {
      var t, a := events[..|events| - 1], events[|events| - 1];
      assert events == t + [a];
      RunSnoc(w, t, a);
      AskedSnoc(t, a, k);
      if k in Run(w, t).gets {
        GotWasAsked(w, t, k);
      } else {
        GotNow(w, Run(w, t), a, k);
      }
    }
  }

  /** Entries sit on their own shard. */
  lemma OwnShard(w: World, events: seq<Event>, shard: nat, y: Entry<bytes>)
    requires Real(w, events) && shard < NUM_SHARDS && y in Run(w, events).hot[shard]
    ensures ShardOf(y.key) == shard
  {
    var trace := Trace(w, events);
    TraceHolds(w, events);
    RunIsLru(w, events);
    ConsistentPart(trace, Only(trace, shard));
    ShardSeesItsOwn(w.capacity, trace, shard);
    HoldsOnlyTraced(PerShard(w.capacity), Only(trace, shard));
  }

  /** An access makes only its own chunk hot. */
  lemma StaysOut(st: Shards<bytes>, capacity: int, e: Entry<bytes>, k: ChunkKey)
    requires !Resident(st, k) && k != e.key
    ensures !Resident(Demand(st, capacity, e), k)
  {
    var l, c := ListOf(st, e.key), PerShard(capacity);
    ListMembers(l, c, e);
    HasIffKey(l, k);
    HasIffKey(ListOf(Demand(st, capacity, e), k), k);
  }

  lemma ColdStays(w: World, events: seq<Event>, a: Event, k: ChunkKey)
    requires Real(w, events + [a]) && Real(w, events) && k in Run(w, events).cold
    ensures k in Run(w, events + [a]).cold
  {
    RunSnoc(w, events, a);
  }

  /** The disk forgets nothing. */
  lemma {:induction false} DiskStays(w: World, events: seq<Event>, k: ChunkKey)
    requires Real(w, events) && k in w.disk
    ensures k in Run(w, events).cold
  {
    if events != [] {
      var t, a := events[..|events| - 1], events[|events| - 1];
      assert events == t + [a];
      DiskStays(w, t, k);
      ColdStays(w, t, a, k);
    }
  }

  /** Nothing that was asked for or on the disk is lost, and nothing else is there. The backend
      delivered only what was asked for, and of that at least what was not on the disk. */
  lemma NothingLost(w: World, events: seq<Event>, k: ChunkKey)
    requires Real(w, events)
    ensures Somewhere(Run(w, events), k) <==> Asked(events, k) || k in w.disk
    ensures k in Run(w, events).gets ==> Asked(events, k)
    ensures Asked(events, k) && k !in w.disk ==> k in Run(w, events).gets
  {
    if Asked(events, k) { AskedIsSomewhere(w, events, k); }
    if k in w.disk { DiskStays(w, events, k); }
    if Somewhere(Run(w, events), k) { SomewhereWasGot(w, events, k); }
    if k in Run(w, events).gets { GotWasAsked(w, events, k); }
  }

  // ---------------------------------------------------------------- fetched once

  ghost predicate FetchedOnce(p: Proxy) {
    forall i, j | 0 <= i < j < |p.gets| :: p.gets[i] != p.gets[j]
  }

  /** A write of the chunk completed at a moment when it had been asked for and was not hot. */
  ghost predicate Spilled(w: World, events: seq<Event>, k: ChunkKey)
    requires Real(w, events)
  {
    exists d | 0 <= d < |events| :: SpilledAt(w, events, k, d)
  }

  predicate SpilledAt(w: World, events: seq<Event>, k: ChunkKey, d: nat)
    requires Real(w, events) && d < |events|
  {
    events[d] == Land(k) && Asked(events[..d], k) && !HotAfter(w, events[..d], k)
  }

  /** Event i asks for a chunk that is not hot and that cannot be read from the disk, neither
      from before the run nor because it was spilled. A condition on the events, the disk at
      the start, and the LRU lists alone. */
  ghost predicate MissAt(w: World, events: seq<Event>, i: nat)
    requires Real(w, events) && i < |events|
  {
    events[i].Ask? && Misses(w, events[..i], events[i].k, events[i].readable)
  }

  ghost predicate Misses(w: World, before: seq<Event>, k: ChunkKey, readable: bool)
    requires Real(w, before)
  {
    !HotAfter(w, before, k) && !(readable && (k in w.disk || Spilled(w, before, k)))
  }

  ghost predicate MissedBefore(w: World, events: seq<Event>, k: ChunkKey)
    requires Real(w, events)
  {
    exists i | 0 <= i < |events| :: events[i].k == k && MissAt(w, events, i)
  }

  /** No chunk is missed twice. */
  ghost predicate Safe(w: World, events: seq<Event>)
    requires Real(w, events)
  {
    forall i, j | 0 <= i < j < |events| && events[i].k == events[j].k :: !(MissAt(w, events, i) && MissAt(w, events, j))
  }

  lemma SpilledSnoc(w: World, events: seq<Event>, a: Event, k: ChunkKey)
    requires Real(w, events + [a]) && Real(w, events)
    ensures Spilled(w, events + [a], k) <==>
            Spilled(w, events, k)
            || (a == Land(k) && Asked(events, k) && !HotAfter(w, events, k))
  {
    var all := events + [a];
    forall d | 0 <= d < |events|
      ensures SpilledAt(w, all, k, d) <==> SpilledAt(w, events, k, d)
    {
      assert all[..d] == events[..d];
    }
    assert all[..|events|] == events;
    assert SpilledAt(w, all, k, |events|) <==>
           a == Land(k) && Asked(events, k) && !HotAfter(w, events, k);
  }

  lemma MissSame(w: World, events: seq<Event>, a: Event, i: nat)
    requires Real(w, events + [a]) && Real(w, events) && i < |events|
    ensures MissAt(w, events + [a], i) <==> MissAt(w, events, i)
  {
    assert (events + [a])[..i] == events[..i];
  }

  lemma MissNow(w: World, events: seq<Event>, a: Event)
    requires Real(w, events + [a]) && Real(w, events)
    ensures MissAt(w, events + [a], |events|) <==> a.Ask? && Misses(w, events, a.k, a.readable)
  {
    assert (events + [a])[..|events|] == events;
  }

  lemma MissedSnoc(w: World, events: seq<Event>, a: Event, k: ChunkKey)
    requires Real(w, events + [a]) && Real(w, events)
    ensures MissedBefore(w, events + [a], k) <==>
            MissedBefore(w, events, k) || (a.Ask? && a.k == k && Misses(w, events, k, a.readable))
  {
    var all := events + [a];
    MissNow(w, events, a);
    forall i | 0 <= i < |events| ensures all[i] == events[i] && (MissAt(w, all, i) <==> MissAt(w, events, i)) {
      MissSame(w, events, a, i);
    }
    assert all[|events|] == a;
  }

  lemma SafeSnoc(w: World, events: seq<Event>, a: Event)
    requires Real(w, events + [a]) && Real(w, events)
    ensures Safe(w, events + [a]) <==>
            Safe(w, events) && !(a.Ask? && Misses(w, events, a.k, a.readable) && MissedBefore(w, events, a.k))
  {
    var all := events + [a];
    MissNow(w, events, a);
    forall i | 0 <= i < |events| ensures all[i] == events[i] && (MissAt(w, all, i) <==> MissAt(w, events, i)) {
      MissSame(w, events, a, i);
    }
    assert all[|events|] == a;
  }

  lemma NowSpilled(w: World, events: seq<Event>, k: ChunkKey)
    requires Real(w, events + [Land(k)]) && Real(w, events)
    requires Asked(events, k) && !HotAfter(w, events, k)
    ensures k in Run(w, events + [Land(k)]).cold
  {
    RunSnoc(w, events, Land(k));
    RunIsLru(w, events);
    AskedIsSomewhere(w, events, k);
    var p := Run(w, events);
    if k !in p.cold {
      var y :| y in p.pending && y.key == k;
      assert EntryGood(w.objects, y);
    }
  }

  /** What was spilled is on the disk. */
  lemma {:induction false} SpilledIsCold(w: World, events: seq<Event>, k: ChunkKey)
    requires Real(w, events) && Spilled(w, events, k)
    ensures k in Run(w, events).cold
  {
    if events != [] {
      var t, a := events[..|events| - 1], events[|events| - 1];
      assert events == t + [a];
      SpilledSnoc(w, t, a, k);
      if Spilled(w, t, k) {
        SpilledIsCold(w, t, k);
        ColdStays(w, t, a, k);
      } else {
        NowSpilled(w, t, k);
      }
    }
  }

  lemma OnceSnoc(p: Proxy, q: Proxy, k: ChunkKey)
    requires q.gets == p.gets + [k]
    ensures FetchedOnce(q) <==> FetchedOnce(p) && k !in p.gets
  {
    assert FetchedOnce(q) ==> forall i, j | 0 <= i < j < |p.gets| :: q.gets[i] == p.gets[i] && q.gets[j] == p.gets[j];
    forall i | 0 <= i < |p.gets| && p.gets[i] == k ensures !FetchedOnce(q) {
      assert q.gets[i] == q.gets[|p.gets|];
    }
  }

  // While no chunk has been fetched twice, a chunk on the disk was there before or was spilled,
  // and one that only awaits its write is not hot.

  ghost predicate Tidy(w: World, events: seq<Event>, k: ChunkKey)
    requires Real(w, events)
  {
    var p := Run(w, events);
    && (k in p.cold ==> k in w.disk || Spilled(w, events, k))
    && (AwaitsWrite(p, k) && k !in p.cold ==> !Resident(p.hot, k))
  }

  lemma HotListsDistinct(w: World, events: seq<Event>, shard: nat)
    requires Real(w, events) && shard < NUM_SHARDS
    ensures Distinct(Run(w, events).hot[shard])
  {
    var trace := Trace(w, events);
    var mine := Only(trace, shard);
    TraceHolds(w, events);
    RunIsLru(w, events);
    ConsistentPart(trace, mine);
    ShardSeesItsOwn(w.capacity, trace, shard);
    ClosedForm(PerShard(w.capacity), mine);
    RecencyHolds(mine);
  }

  /** An evicted chunk is not hot. */
  lemma VictimsAreGone(l: seq<Entry<bytes>>, capacity: int, e: Entry<bytes>, x: Entry<bytes>)
    requires Distinct(l) && !Has(l, e.key) && x in Victims(l, capacity, e)
    ensures !Has(AfterPut(l, capacity, e), x.key)
  {
    var m := KeepLen(l, |l|, capacity - e.size);
    FromTailMembers(l, m);
    var j :| m <= j < |l| && l[j] == x;
    HasIffKey(l, x.key);
    HasIffKey(AfterPut(l, capacity, e), x.key);
    forall i | 0 <= i < m ensures l[i].key != x.key { assert l[i].key != l[j].key; }
    assert forall y | y in AfterPut(l, capacity, e) :: y == e || y in l[..m];
  }

  lemma TidyAskCold(w: World, events: seq<Event>, a: Event, k: ChunkKey)
    requires Real(w, events + [a]) && Real(w, events) && Tidy(w, events, k) && a.Ask?
    requires k in Run(w, events + [a]).cold
    ensures k in w.disk || Spilled(w, events + [a], k)
  {
    RunSnoc(w, events, a);
    SpilledSnoc(w, events, a, k);
  }

  lemma TidyAskCool(w: World, events: seq<Event>, a: Event, k: ChunkKey)
    requires Real(w, events + [a]) && Real(w, events) && Tidy(w, events, k) && a.Ask?
    requires var q := Run(w, events + [a]);
             FetchedOnce(q) && AwaitsWrite(q, k) && k !in q.cold
    ensures !Resident(Run(w, events + [a]).hot, k)
  {
    RunSnoc(w, events, a);
    if AwaitsWrite(Run(w, events), k) {
      WaitingStaysCool(w, events, a, k);
    } else {
      VictimIsCool(w, events, a, k);
    }
  }

  lemma TidyAsk(w: World, events: seq<Event>, a: Event, k: ChunkKey)
    requires Real(w, events + [a]) && Real(w, events) && Tidy(w, events, k) && a.Ask?
    requires FetchedOnce(Run(w, events + [a]))
    ensures Tidy(w, events + [a], k)
  {
    var q := Run(w, events + [a]);
    if k in q.cold {
      TidyAskCold(w, events, a, k);
    } else if AwaitsWrite(q, k) {
      TidyAskCool(w, events, a, k);
    }
  }

  lemma WaitingWasGot(w: World, events: seq<Event>, k: ChunkKey)
    requires Real(w, events) && AwaitsWrite(Run(w, events), k) && k !in Run(w, events).cold
    ensures k in Run(w, events).gets
  {
    SomewhereWasGot(w, events, k);
    if k in w.disk { DiskStays(w, events, k); }
  }

  /** A chunk whose write is pending, and that is not hot, does not become hot: it would have
      to be fetched again. */
  lemma WaitingStaysCool(w: World, events: seq<Event>, a: Event, k: ChunkKey)
    requires Real(w, events) && a.Ask? && HasChunk(w.objects, a.k)
    requires var p := Run(w, events);
             AwaitsWrite(p, k) && k !in p.cold && !Resident(p.hot, k) && FetchedOnce(Apply(p, w, a))
    ensures !Resident(Apply(Run(w, events), w, a).hot, k)
  {
    var p := Run(w, events);
    RunIsLru(w, events);
    ResolvedIsDemand(w, p, a.k, a.readable);
    WaitingWasGot(w, events, k);
    if k == a.k { OnceSnoc(p, Apply(p, w, a), k); assert false; }
    StaysOut(p.hot, w.capacity, EntryOf(w.objects, a.k), k);
  }

  lemma VictimIsCool(w: World, events: seq<Event>, a: Event, k: ChunkKey)
    requires Real(w, events) && a.Ask? && HasChunk(w.objects, a.k)
    requires var p := Run(w, events);
             !AwaitsWrite(p, k) && AwaitsWrite(Apply(p, w, a), k)
    ensures !Resident(Apply(Run(w, events), w, a).hot, k)
  {
    var p, e := Run(w, events), EntryOf(w.objects, a.k);
    RunIsLru(w, events);
    ResolvedIsDemand(w, p, a.k, a.readable);
    PendingNotNew(w, p, a, k);
    var y :| y in Evicted(p.hot, w.capacity, e) && y.key == k && y in ListOf(p.hot, a.k);
    HotListsDistinct(w, events, ShardOf(a.k));
    VictimsAreGone(ListOf(p.hot, a.k), PerShard(w.capacity), e, y);
    OwnShard(w, events, ShardOf(a.k), y);
  }

  lemma TidyLand(w: World, events: seq<Event>, x: ChunkKey, k: ChunkKey)
    requires Real(w, events + [Land(x)]) && Real(w, events) && Tidy(w, events, k)
    ensures Tidy(w, events + [Land(x)], k)
  {
    var p := Run(w, events);
    RunSnoc(w, events, Land(x));
    SpilledSnoc(w, events, Land(x), k);
    RunIsLru(w, events);
    LandedKeeps(w.objects, p, EntryOf(w.objects, x), k);
    NothingLost(w, events, k);
  }

  lemma OnceBefore(w: World, events: seq<Event>, a: Event)
    requires Real(w, events + [a]) && Real(w, events)
    requires FetchedOnce(Run(w, events + [a]))
    ensures FetchedOnce(Run(w, events))
  {
    RunSnoc(w, events, a);
    var p := Run(w, events);
    if a.Ask? && TierOf(p, a.k, a.readable) == Backend { OnceSnoc(p, Run(w, events + [a]), a.k); }
  }

  lemma TidyStep(w: World, events: seq<Event>, a: Event, k: ChunkKey)
    requires Real(w, events + [a]) && Real(w, events) && Tidy(w, events, k)
    requires FetchedOnce(Run(w, events + [a]))
    ensures Tidy(w, events + [a], k)
  {
    if a.Ask? { TidyAsk(w, events, a, k); } else { TidyLand(w, events, a.k, k); }
  }

  lemma {:induction false} TidyRuns(w: World, events: seq<Event>, k: ChunkKey)
    requires Real(w, events) && FetchedOnce(Run(w, events))
    ensures Tidy(w, events, k)
  {
    if events != [] {
      var t, a := events[..|events| - 1], events[|events| - 1];
      assert events == t + [a];
      RunSnoc(w, t, a);
      OnceBefore(w, t, a);
      TidyRuns(w, t, k);
      TidyStep(w, t, a, k);
    }
  }

  /** As long as no chunk has been fetched twice, a miss goes to the backend, and only a miss. */
  lemma MissIsBackend(w: World, events: seq<Event>, k: ChunkKey, readable: bool)
    requires Real(w, events) && FetchedOnce(Run(w, events))
    ensures TierOf(Run(w, events), k, readable) == Backend <==> Misses(w, events, k, readable)
  {
    RunIsLru(w, events);
    TidyRuns(w, events, k);
    if k in w.disk { DiskStays(w, events, k); }
    if Spilled(w, events, k) { SpilledIsCold(w, events, k); }
  }

  lemma GotByAsk(p: Proxy, w: World, a: Event, k: ChunkKey)
    requires HasChunk(w.objects, a.k)
    ensures k in Apply(p, w, a).gets <==>
            k in p.gets || (a.Ask? && a.k == k && TierOf(p, a.k, a.readable) == Backend)
  {
  }

  lemma GotSnoc(w: World, events: seq<Event>, a: Event, k: ChunkKey)
    requires Real(w, events + [a]) && Real(w, events) && FetchedOnce(Run(w, events))
    ensures k in Run(w, events + [a]).gets <==>
            k in Run(w, events).gets || (a.Ask? && a.k == k && Misses(w, events, k, a.readable))
  {
    RunSnoc(w, events, a);
    GotByAsk(Run(w, events), w, a, k);
    if a.Ask? { MissIsBackend(w, events, a.k, a.readable); }
  }

  lemma {:induction false} GotIffMissed(w: World, events: seq<Event>, k: ChunkKey)
    requires Real(w, events) && FetchedOnce(Run(w, events))
    ensures k in Run(w, events).gets <==> MissedBefore(w, events, k)
  {
    if events != [] {
      var t, a := events[..|events| - 1], events[|events| - 1];
      assert events == t + [a];
      OnceBefore(w, t, a);
      GotIffMissed(w, t, k);
      GotSnoc(w, t, a, k);
      MissedSnoc(w, t, a, k);
    }
  }

  /** Exactly when the backend is asked for no chunk twice, for every disk at the start, all
      requests, all outcomes of disk reads, and every timing and order of the background
      writes: no chunk is asked for twice while it is neither hot nor readable on the disk,
      where it is if it was there at the start, or if a write of it completed while it had been
      asked for and was not hot. */
  lemma {:induction false} FetchedOnceIff(w: World, events: seq<Event>)
    requires Real(w, events)
    ensures FetchedOnce(Run(w, events)) <==> Safe(w, events)
  {
    if events != [] {
      var t, a := events[..|events| - 1], events[|events| - 1];
      assert events == t + [a];
      FetchedOnceIff(w, t);
      RunSnoc(w, t, a);
      SafeSnoc(w, t, a);
      if a.Ask? { AskOnceIff(w, t, a); }
    }
  }

  lemma AskOnceIff(w: World, events: seq<Event>, a: Event)
    requires Real(w, events) && a.Ask? && HasChunk(w.objects, a.k)
    ensures var p := Run(w, events);
            FetchedOnce(Apply(p, w, a)) <==>
            FetchedOnce(p) && !(Misses(w, events, a.k, a.readable) && MissedBefore(w, events, a.k))
  {
    var p := Run(w, events);
    if TierOf(p, a.k, a.readable) == Backend { OnceSnoc(p, Apply(p, w, a), a.k); }
    if FetchedOnce(p) {
      MissIsBackend(w, events, a.k, a.readable);
      GotIffMissed(w, events, a.k);
    }
  }
}
