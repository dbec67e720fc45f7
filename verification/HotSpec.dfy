/** The whole hot cache as 256 lists, and what holds of it over every demand trace. */
module HotSpec {
  import opened Basics
  import opened Fnv
  import opened LruSpec

  type Shards<V> = st: seq<seq<Entry<V>>> | |st| == NUM_SHARDS witness seq(NUM_SHARDS, _ => [])

  function Empty<V>(): Shards<V> {
    seq(NUM_SHARDS, _ => [])
  }

  /** capacityBytes / numShards, with Go's division, which truncates toward zero. */
  function PerShard(capacityBytes: int): int {
    if capacityBytes >= 0 then capacityBytes / NUM_SHARDS else -((-capacityBytes) / NUM_SHARDS)
  }

  function ListOf<V>(st: Shards<V>, k: ChunkKey): seq<Entry<V>> {
    st[ShardOf(k)]
  }

  predicate Resident<V>(st: Shards<V>, k: ChunkKey) {
    Has(ListOf(st, k), k)
  }

  function Got<V>(st: Shards<V>, k: ChunkKey): Shards<V> {
    st[ShardOf(k) := AfterGet(ListOf(st, k), k)]
  }

  function Stored<V>(st: Shards<V>, capacityBytes: int, e: Entry<V>): Shards<V> {
    st[ShardOf(e.key) := AfterPut(ListOf(st, e.key), PerShard(capacityBytes), e)]
  }

  function Evicted<V>(st: Shards<V>, capacityBytes: int, e: Entry<V>): seq<Entry<V>> {
    Victims(ListOf(st, e.key), PerShard(capacityBytes), e)
  }

  /** A demand access: Get, then Put on a miss. */
  function Demand<V>(st: Shards<V>, capacityBytes: int, e: Entry<V>): Shards<V> {
    if Resident(st, e.key) then Got(st, e.key) else Stored(st, capacityBytes, e)
  }

  function AfterAll<V>(capacityBytes: int, trace: seq<Entry<V>>): Shards<V> {
    if trace == [] then Empty()
    else Demand(AfterAll(capacityBytes, trace[..|trace| - 1]), capacityBytes, trace[|trace| - 1])
  }

  /** The accesses of a trace that go to one shard. */
  function Only<V>(trace: seq<Entry<V>>, shard: nat): (r: seq<Entry<V>>)
    ensures forall e | e in r :: e in trace && ShardOf(e.key) == shard
    ensures forall e | e in trace && ShardOf(e.key) == shard :: e in r
  {
    if trace == [] then []
    else
      var t, e := trace[..|trace| - 1], trace[|trace| - 1];
      assert trace == t + [e];
      if ShardOf(e.key) == shard then Only(t, shard) + [e] else Only(t, shard)
  }

  /** How many accesses of the trace found their chunk in the hot cache. */
  function Hits<V>(capacityBytes: int, trace: seq<Entry<V>>): nat {
    if trace == [] then 0
    else
      var t, e := trace[..|trace| - 1], trace[|trace| - 1];
      Hits(capacityBytes, t) + if Resident(AfterAll(capacityBytes, t), e.key) then 1 else 0
  }

  /** The chunk of access i was hot when it was asked for. */
  predicate HitAt<V>(capacityBytes: int, trace: seq<Entry<V>>, i: nat)
    requires i < |trace|
  {
    Resident(AfterAll(capacityBytes, trace[..i]), trace[i].key)
  }

  lemma HitAtPrefix<V>(capacityBytes: int, trace: seq<Entry<V>>, n: nat, i: nat)
    requires i < n <= |trace|
    ensures HitAt(capacityBytes, trace[..n], i) == HitAt(capacityBytes, trace, i)
  {
    assert trace[..n][..i] == trace[..i];
  }

  function HitsAt<V>(capacityBytes: int, trace: seq<Entry<V>>): set<nat> {
    set i: nat | i < |trace| && HitAt(capacityBytes, trace, i)
  }

  lemma HitsSnoc<V>(capacityBytes: int, trace: seq<Entry<V>>, n: nat)
    requires n + 1 == |trace|
    ensures HitsAt(capacityBytes, trace) ==
            HitsAt(capacityBytes, trace[..n]) + if HitAt(capacityBytes, trace, n) then {n} else {}
  {
    forall i: nat | i < n ensures HitAt(capacityBytes, trace[..n], i) == HitAt(capacityBytes, trace, i) {
      HitAtPrefix(capacityBytes, trace, n, i);
    }
  }

  /** The hits are as many as these positions. */
  lemma {:induction false} HitsAre<V>(capacityBytes: int, trace: seq<Entry<V>>)
    ensures Hits(capacityBytes, trace) == |HitsAt(capacityBytes, trace)|
  {
    if trace != [] {
      var n := |trace| - 1;
      HitsAre(capacityBytes, trace[..n]);
      HitsSnoc(capacityBytes, trace, n);
      var before := HitsAt(capacityBytes, trace[..n]);
      assert HitAt(capacityBytes, trace, n) == Resident(AfterAll(capacityBytes, trace[..n]), trace[n].key);
      if HitAt(capacityBytes, trace, n) {
        assert |before + {n}| == |before| + 1;
      } else {
        assert before + {} == before;
      }
    }
  }

  // ---------------------------------------------------------------- shards are independent

  lemma DemandOnShard<V>(st: Shards<V>, capacityBytes: int, e: Entry<V>, shard: nat)
    requires shard < NUM_SHARDS
    ensures Demand(st, capacityBytes, e)[shard] ==
            if ShardOf(e.key) == shard then Access(st[shard], PerShard(capacityBytes), e) else st[shard]
  {
  }

  lemma OnlySnoc<V>(t: seq<Entry<V>>, e: Entry<V>, shard: nat)
    ensures Only(t + [e], shard) == if ShardOf(e.key) == shard then Only(t, shard) + [e] else Only(t, shard)
  {
    assert (t + [e])[..|t + [e]| - 1] == t;
  }

  /** A shard behaves as if it saw only its own accesses. */
  lemma {:induction false} ShardSeesItsOwn<V>(capacityBytes: int, trace: seq<Entry<V>>, shard: nat)
    requires shard < NUM_SHARDS
    ensures AfterAll(capacityBytes, trace)[shard] == After(PerShard(capacityBytes), Only(trace, shard))
  {
    if trace != [] {
      var t, e := trace[..|trace| - 1], trace[|trace| - 1];
      assert trace == t + [e];
      ShardSeesItsOwn(capacityBytes, t, shard);
      DemandOnShard(AfterAll(capacityBytes, t), capacityBytes, e, shard);
      OnlySnoc(t, e, shard);
      if ShardOf(e.key) == shard { Snoc(PerShard(capacityBytes), Only(t, shard), e); }
    }
  }

  /** 256 equal shares, cut off toward zero, are within the capacity, and one byte more for each
      shard would not be. */
  lemma ShareOfCapacity(capacityBytes: int)
    ensures capacityBytes >= 0 ==> 256 * PerShard(capacityBytes) <= capacityBytes < 256 * (PerShard(capacityBytes) + 1)
    ensures capacityBytes < 0 ==>
              256 * (PerShard(capacityBytes) - 1) < capacityBytes <= 256 * PerShard(capacityBytes) <= 0
  {
  }

  /** What fits one share, in terms of the whole. */
  lemma FitsShare(capacityBytes: int, n: nat)
    requires n > 0
    ensures n <= PerShard(capacityBytes) <==> 256 * n <= capacityBytes
  {
    ShareOfCapacity(capacityBytes);
  }

  lemma PerShardMonotone(small: int, large: int)
    requires small <= large
    ensures PerShard(small) <= PerShard(large)
  {
  }

  /** A larger cache holds, shard by shard, everything a smaller one does. */
  lemma LargerHoldsMore<V>(small: int, large: int, trace: seq<Entry<V>>, k: ChunkKey)
    requires Consistent(trace) && small <= large
    ensures ListOf(AfterAll(small, trace), k) <= ListOf(AfterAll(large, trace), k)
    ensures Resident(AfterAll(small, trace), k) ==> Resident(AfterAll(large, trace), k)
  {
    var mine := Only(trace, ShardOf(k));
    ConsistentPart(trace, mine);
    ShardSeesItsOwn(small, trace, ShardOf(k));
    ShardSeesItsOwn(large, trace, ShardOf(k));
    PerShardMonotone(small, large);
    Inclusion(PerShard(small), PerShard(large), mine);
    var l, l' := ListOf(AfterAll(small, trace), k), ListOf(AfterAll(large, trace), k);
    FindPrefix(l', k, |l|);
    assert l == l'[..|l|];
  }

  /** Raising ram_capacity_bytes never costs a hit, whatever the trace and the chunk sizes. */
  lemma {:induction false} MoreMemoryNeverHurts<V>(small: int, large: int, trace: seq<Entry<V>>)
    requires Consistent(trace) && small <= large
    ensures Hits(small, trace) <= Hits(large, trace)
  {
    if trace != [] {
      var t, e := trace[..|trace| - 1], trace[|trace| - 1];
      ConsistentPart(trace, t);
      MoreMemoryNeverHurts(small, large, t);
      LargerHoldsMore(small, large, t, e.key);
    }
  }

  // ---------------------------------------------------------------- residency

  lemma {:induction false} OnlyConcat<V>(a: seq<Entry<V>>, b: seq<Entry<V>>, shard: nat)
    ensures Only(a + b, shard) == Only(a, shard) + Only(b, shard)
    decreases |b|
  {
    if b == [] {
      assert a + b == a;
    } else {
      var t := b[..|b| - 1];
      assert (a + b)[..|a + b| - 1] == a + t;
      OnlyConcat(a, t, shard);
    }
  }

  lemma OnlyOne<V>(e: Entry<V>)
    ensures Only([e], ShardOf(e.key)) == [e]
  {
    assert [e][..0] == [];
  }

  /** Exactly when a chunk is still hot after its last use: no other chunk of its shard was
      used since, or it and all of those fit the shard together. */
  lemma StaysHotIff<V>(capacityBytes: int, before: seq<Entry<V>>, e: Entry<V>, later: seq<Entry<V>>)
    requires Consistent(before + [e] + later)
    requires forall x | x in later :: x.key != e.key
    ensures var rivals := Only(later, ShardOf(e.key));
            Resident(AfterAll(capacityBytes, before + [e] + later), e.key)
            <==> rivals == [] || e.size + DistinctBytes(rivals) <= PerShard(capacityBytes)
  {
    var s := ShardOf(e.key);
    var trace := before + [e] + later;
    ShardSeesItsOwn(capacityBytes, trace, s);
    OnlyConcat(before + [e], later, s);
    OnlyConcat(before, [e], s);
    OnlyOne(e);
    ConsistentPart(trace, Only(trace, s));
    Residency(PerShard(capacityBytes), Only(before, s), e, Only(later, s));
  }

  ghost predicate AllOfSize<V>(trace: seq<Entry<V>>, size: nat) {
    forall e | e in trace :: e.size == size
  }

  /** The keys of a trace that live on the shard. */
  ghost function KeysOn<V>(trace: seq<Entry<V>>, shard: nat): set<ChunkKey> {
    set e | e in trace && ShardOf(e.key) == shard :: e.key
  }

  lemma KeysOnSnoc<V>(t: seq<Entry<V>>, e: Entry<V>, shard: nat)
    ensures KeysOn(t + [e], shard) == if ShardOf(e.key) == shard then KeysOn(t, shard) + {e.key} else KeysOn(t, shard)
    ensures ShardOf(e.key) == shard ==> (e.key in KeysOn(t, shard) <==> Mentions(Only(t, shard), e.key))
  {
    var all := t + [e];
    assert forall x :: x in all <==> x in t || x == e;
    if ShardOf(e.key) == shard && e.key in KeysOn(t, shard) {
      var x :| x in t && ShardOf(x.key) == shard && x.key == e.key;
      assert x in Only(t, shard);
    }
  }

  lemma BytesSnoc<V>(t: seq<Entry<V>>, e: Entry<V>)
    ensures DistinctBytes(t + [e]) == DistinctBytes(t) + if Mentions(t, e.key) then 0 else e.size
  {
    assert (t + [e])[..|t + [e]| - 1] == t;
  }

  lemma OneMoreKey(keys: set<ChunkKey>, k: ChunkKey, size: nat)
    ensures size * |keys + {k}| == size * |keys| + if k in keys then 0 else size
  {
    if k in keys { assert keys + {k} == keys; } else { assert |keys + {k}| == |keys| + 1; }
  }

  /** The distinct bytes of full-size accesses are so many bytes for each distinct key. */
  lemma {:induction false} BytesOfKeys<V>(trace: seq<Entry<V>>, shard: nat, size: nat)
    requires AllOfSize(trace, size)
    ensures DistinctBytes(Only(trace, shard)) == size * |KeysOn(trace, shard)|
  {
    if trace != [] {
      var t, e := trace[..|trace| - 1], trace[|trace| - 1];
      assert trace == t + [e] && e in trace;
      BytesOfKeys(t, shard, size);
      OnlySnoc(t, e, shard);
      BytesSnoc(Only(t, shard), e);
      KeysOnSnoc(t, e, shard);
      OneMoreKey(KeysOn(t, shard), e.key, size);
    } else {
      assert KeysOn(trace, shard) == {};
    }
  }

  /** In bytes of configured memory: with full chunks of 4 MiB, a chunk is still hot after its
      last use if and only if no other chunk of its shard was used since, or the capacity is at
      least 1 GiB, that is 256 chunks, for each of the distinct ones and for itself. */
  lemma StaysHotInBytes<V>(capacityBytes: int, before: seq<Entry<V>>, e: Entry<V>, later: seq<Entry<V>>)
    requires Consistent(before + [e] + later) && AllOfSize([e] + later, 4194304)
    requires forall x | x in later :: x.key != e.key
    ensures var rivals := set x | x in later && ShardOf(x.key) == ShardOf(e.key) :: x.key;
            Resident(AfterAll(capacityBytes, before + [e] + later), e.key)
            <==> rivals == {} || 256 * 4194304 * (|rivals| + 1) <= capacityBytes
  {
    var s := ShardOf(e.key);
    var rivals := KeysOn(later, s);
    StaysHotIff(capacityBytes, before, e, later);
    assert forall x | x in later :: x in [e] + later;
    BytesOfKeys(later, s, 4194304);
    assert e in [e] + later;
    FitsShare(capacityBytes, (|rivals| + 1) * 4194304);
    var mine := Only(later, s);
    if mine != [] { assert mine[0] in mine && mine[0].key in rivals; }
    if rivals != {} {
      var k :| k in rivals;
      var x :| x in later && ShardOf(x.key) == s && x.key == k;
      assert x in mine;
    }
  }

  /** The chunk of the trace was used last at some position. */
  lemma LastUse<V>(trace: seq<Entry<V>>, e: Entry<V>) returns (i: nat)
    requires e in trace
    ensures i < |trace| && trace[i].key == e.key
    ensures forall x | x in trace[i + 1..] :: x.key != e.key
  {
    i := |trace| - 1;
    while trace[i].key != e.key
      invariant i < |trace|
      invariant forall j | i < j < |trace| :: trace[j].key != e.key
      decreases i
    {
      assert exists j :: 0 <= j < |trace| && trace[j] == e;
      i := i - 1;
    }
  }

  /** All chunks of the trace belong to one object and one aligned block of 256 chunks. */
  ghost predicate InBlock<V>(trace: seq<Entry<V>>, key: ObjectKey, block: nat) {
    forall e | e in trace :: e.key.objectKey == key && e.key.chunkIndex / 256 == block
  }

  /** Two chunks of one aligned block that share a shard are the same chunk. */
  lemma NoRivalInBlock(k: ChunkKey, k': ChunkKey)
    requires k.objectKey == k'.objectKey && k.chunkIndex / 256 == k'.chunkIndex / 256
    requires ShardOf(k) == ShardOf(k')
    ensures k == k'
  {
    var block := k.chunkIndex / 256;
    BlockPermutesShards(k.objectKey, block, k.chunkIndex % 256, ShardOf(k));
    BlockPermutesShards(k.objectKey, block, k'.chunkIndex % 256, ShardOf(k));
  }

  /** Scanning within one aligned block of an object evicts nothing, at any capacity: each of
      its chunks is alone on its shard. */
  lemma BlockScanStaysHot<V>(capacityBytes: int, trace: seq<Entry<V>>, key: ObjectKey, block: nat, e: Entry<V>)
    requires Consistent(trace) && InBlock(trace, key, block) && e in trace
    ensures Resident(AfterAll(capacityBytes, trace), e.key)
  {
    var i := LastUse(trace, e);
    var before, later := trace[..i], trace[i + 1..];
    assert trace[i] == e;
    assert before + [e] + later == trace;
    var rivals := Only(later, ShardOf(e.key));
    if rivals != [] {
      assert rivals[0] in rivals;
      NoRivalInBlock(e.key, rivals[0].key);
      assert false;
    }
    StaysHotIff(capacityBytes, before, e, later);
  }

  // ---------------------------------------------------------------- memory

  function BytesOn<V>(st: Shards<V>, n: nat): nat
    requires n <= NUM_SHARDS
  {
    if n == 0 then 0 else BytesOn(st, n - 1) + Sum(st[n - 1])
  }

  lemma OneShardBound<V>(capacityBytes: int, trace: seq<Entry<V>>, shard: nat)
    requires Consistent(trace) && shard < NUM_SHARDS
    requires forall e | e in trace :: e.size <= CHUNK_SIZE
    ensures Sum(AfterAll(capacityBytes, trace)[shard]) <= Max(PerShard(capacityBytes), CHUNK_SIZE)
  {
    var mine := Only(trace, shard);
    ConsistentPart(trace, mine);
    ShardSeesItsOwn(capacityBytes, trace, shard);
    ShardBound(PerShard(capacityBytes), mine);
    HoldsOnlyTraced(PerShard(capacityBytes), mine);
    SumAtMost(After(PerShard(capacityBytes), mine), PerShard(capacityBytes), CHUNK_SIZE);
  }

  lemma {:induction false} BoundedShards<V>(st: Shards<V>, n: nat, bound: nat)
    requires n <= NUM_SHARDS && forall s | 0 <= s < NUM_SHARDS :: Sum(st[s]) <= bound
    ensures BytesOn(st, n) <= n * bound
  {
    if n > 0 {
      BoundedShards(st, n - 1, bound);
      assert n * bound == (n - 1) * bound + bound;
    }
  }

  /** Shards within their share, or with at most one full chunk, keep the cache within its
      configured capacity, or one full chunk per shard if that is more. */
  lemma BoundedCache<V>(st: Shards<V>, capacityBytes: int)
    requires forall s | 0 <= s < NUM_SHARDS :: Sum(st[s]) <= Max(PerShard(capacityBytes), CHUNK_SIZE)
    ensures BytesOn(st, NUM_SHARDS) <= Max(capacityBytes, NUM_SHARDS * CHUNK_SIZE)
  {
    BoundedShards(st, NUM_SHARDS, Max(PerShard(capacityBytes), CHUNK_SIZE));
  }

  /** After any trace of demand accesses the hot cache holds no more than that. */
  lemma MemoryBound<V>(capacityBytes: int, trace: seq<Entry<V>>)
    requires Consistent(trace) && forall e | e in trace :: e.size <= CHUNK_SIZE
    ensures BytesOn(AfterAll(capacityBytes, trace), NUM_SHARDS) <= Max(capacityBytes, NUM_SHARDS * CHUNK_SIZE)
  {
    forall s | 0 <= s < NUM_SHARDS
      ensures Sum(AfterAll(capacityBytes, trace)[s]) <= Max(PerShard(capacityBytes), CHUNK_SIZE) {
      OneShardBound(capacityBytes, trace, s);
    }
    BoundedCache(AfterAll(capacityBytes, trace), capacityBytes);
  }

  const DEFAULT_CAPACITY: int := 536870912   // 512 MiB

  /** With the default capacity a shard's byte counter is over its 2 MiB exactly from the
      use of a chunk of more than 2 MiB to the next use of a smaller one on its shard: every
      full chunk puts it there. */
  lemma DefaultShardOverflowsIff<V>(trace: seq<Entry<V>>, shard: nat)
    requires Consistent(trace) && shard < NUM_SHARDS
    ensures var mine := Only(trace, shard);
            Sum(AfterAll(DEFAULT_CAPACITY, trace)[shard]) > 2097152
            <==> mine != [] && mine[|mine| - 1].size > 2097152
  {
    ShardSeesItsOwn(DEFAULT_CAPACITY, trace, shard);
    ConsistentPart(trace, Only(trace, shard));
    FitsIff(PerShard(DEFAULT_CAPACITY), Only(trace, shard));
  }

  /** For instance: one full chunk, and its shard is at twice its capacity. */
  lemma OneChunkOverflowsDefault<V>(e: Entry<V>)
    requires e.size == CHUNK_SIZE
    ensures Sum(AfterAll(DEFAULT_CAPACITY, [e])[ShardOf(e.key)]) == 4194304 == 2 * PerShard(DEFAULT_CAPACITY)
  {
    OnlyOne(e);
    ShardSeesItsOwn(DEFAULT_CAPACITY, [e], ShardOf(e.key));
    assert [] + [e] == [e];
    Snoc(PerShard(DEFAULT_CAPACITY), [], e);
    assert After(PerShard(DEFAULT_CAPACITY), [e]) == [e];
    assert SumTo([e], 1) == SumTo([e], 0) + e.size;
  }

  /** With full-size chunks every capacity below 2 GiB, two chunks per shard, gives the same cache:
      raising 512 MiB to 1 GiB changes neither its contents nor its hits. */
  lemma {:induction false} BelowTwoChunksAllAlike<V>(capacity: int, capacity': int, trace: seq<Entry<V>>)
    requires Consistent(trace) && AllOfSize(trace, CHUNK_SIZE)
    requires capacity < 2147483648 && capacity' < 2147483648
    ensures AfterAll(capacity, trace) == AfterAll(capacity', trace)
    ensures Hits(capacity, trace) == Hits(capacity', trace)
  {
    if trace != [] {
      var t := trace[..|trace| - 1];
      ConsistentPart(trace, t);
      BelowTwoChunksAllAlike(capacity, capacity', t);
    }
    forall s | 0 <= s < NUM_SHARDS
      ensures AfterAll(capacity, trace)[s] == AfterAll(capacity', trace)[s]
    {
      var mine := Only(trace, s);
      ConsistentPart(trace, mine);
      ShardSeesItsOwn(capacity, trace, s);
      ShardSeesItsOwn(capacity', trace, s);
      ClosedForm(PerShard(capacity), mine);
      ClosedForm(PerShard(capacity'), mine);
      RecencyHolds(mine);
      OneFits(Recency(mine), PerShard(capacity));
      OneFits(Recency(mine), PerShard(capacity'));
    }
  }

  lemma OneFits<V>(l: seq<Entry<V>>, capacity: int)
    requires capacity < 2 * CHUNK_SIZE && forall e | e in l :: e.size == CHUNK_SIZE
    ensures FitLen(l, capacity) == Min(1, |l|)
  {
    if |l| >= 1 { assert l[0] in l; assert SumTo(l, 1) == SumTo(l, 0) + l[0].size; }
    if |l| >= 2 {
      assert l[1] in l;
      assert SumTo(l, 2) == SumTo(l, 1) + l[1].size;
    }
    if l != [] { FitLenIs(l, capacity, 1); }
  }

  // ---------------------------------------------------------------- where entries come from and go

  lemma ListMembers<V>(l: seq<Entry<V>>, capacity: int, e: Entry<V>)
    ensures forall x | x in Touch(l, e) :: x == e || x in l
    ensures forall x | x in AfterGet(l, e.key) :: x in l
    ensures forall x | x in l && x.key != e.key :: x in AfterGet(l, e.key)
    ensures Has(l, e.key) ==> AfterGet(l, e.key)[0].key == e.key
    ensures forall x | x in AfterPut(l, capacity, e) :: x == e || x in l
    ensures e in AfterPut(l, capacity, e)
  {
    assert forall x | x in Without(l, e.key) :: x in l;
    assert forall x | x in l && x.key != e.key :: x in Without(l, e.key);
    if Has(l, e.key) {
      var f := l[Find(l, e.key)];
      assert f in l && Without(l, f.key) == Without(l, e.key);
    }
    assert AfterPut(l, capacity, e)[0] == e;
  }

  lemma {:induction false} FromTailMembers<V>(l: seq<Entry<V>>, m: nat)
    requires m <= |l|
    ensures forall x | x in FromTail(l, m) :: x in l[m..]
    ensures forall x | x in l[m..] :: x in FromTail(l, m)
    decreases |l| - m
  {
    if m < |l| {
      FromTailMembers(l, m + 1);
      assert l[m..] == [l[m]] + l[m + 1..];
    }
  }

  /** Put loses nothing: each old entry of another key is kept or handed to onEvict, and only
      old entries are handed over. */
  lemma PutMembers<V>(l: seq<Entry<V>>, capacity: int, e: Entry<V>)
    ensures forall x | x in Victims(l, capacity, e) :: x in l
    ensures forall x | x in l && x.key != e.key :: x in AfterPut(l, capacity, e) || x in Victims(l, capacity, e)
  {
    if Has(l, e.key) {
      assert forall x | x in l && x.key != e.key :: x in Without(l, e.key);
    } else {
      var m := KeepLen(l, |l|, capacity - e.size);
      FromTailMembers(l, m);
      assert l == l[..m] + l[m..];
    }
  }
}
