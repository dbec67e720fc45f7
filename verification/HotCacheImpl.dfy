/** The sharded RAM cache as it is written: a map and a recency list kept in step, a byte
    counter, an eviction loop and a hash that picks the shard. Every operation is proved
    against the lists of HotSpec. */
module HotCacheImpl {
  import opened Basics
  import opened Fnv
  import opened LruSpec
  import opened HotSpec

  function Node(k: ChunkKey, data: bytes): Entry<bytes> {
    Entry(k, |data|, data)
  }

  /** Position i of the recency list is in the map, shows in l, and is the only one of its key. */
  ghost predicate LinkedAt(items: map<ChunkKey, bytes>, order: seq<ChunkKey>, l: seq<Entry<bytes>>, i: nat)
    requires i < |order| == |l|
  {
    order[i] in items && l[i] == Node(order[i], items[order[i]]) && Find(l, order[i]) == i
  }

  /** The map items and the recency list order hold exactly the entries l, no key twice. */
  ghost predicate Linked(items: map<ChunkKey, bytes>, order: seq<ChunkKey>, l: seq<Entry<bytes>>) {
    && |order| == |l|
    && (forall i | 0 <= i < |l| :: LinkedAt(items, order, l, i))
    && (forall k | k in items :: Has(l, k))
  }

  function Position(order: seq<ChunkKey>, k: ChunkKey, i: nat): (r: nat)
    requires i <= |order| && k in order[i..]
    ensures i <= r < |order| && order[r] == k && forall j | i <= j < r :: order[j] != k
    decreases |order| - i
  {
    if order[i] == k then i else Position(order, k, i + 1)
  }

  /** container/list's MoveToFront. */
  function Front(order: seq<ChunkKey>, k: ChunkKey): seq<ChunkKey>
    requires k in order
  {
    var i := Position(order, k, 0);
    [k] + order[..i] + order[i + 1..]
  }

  // ---------------------------------------------------------------- one operation, as values

  lemma FindNode(items: map<ChunkKey, bytes>, order: seq<ChunkKey>, l: seq<Entry<bytes>>, k: ChunkKey)
    requires Linked(items, order, l)
    ensures Has(l, k) <==> k in items
    ensures k in items ==> k in order && Position(order, k, 0) == Find(l, k)
                           && l[Find(l, k)] == Node(k, items[k])
  {
    var i := Find(l, k);
    if i < |l| {
      assert LinkedAt(items, order, l, i) && order[i] == k;
      forall j | 0 <= j < i ensures order[j] != k { assert LinkedAt(items, order, l, j); }
    }
  }

  /** What the list looks like at one position after e is touched. */
  lemma TouchAt(l: seq<Entry<bytes>>, e: Entry<bytes>, a: nat)
    requires Has(l, e.key) && 0 < a < |l|
    ensures |Touch(l, e)| == |l| && Touch(l, e)[a] == l[if a <= Find(l, e.key) then a - 1 else a]
  {
  }

  lemma FindTouched(l: seq<Entry<bytes>>, e: Entry<bytes>, a: nat)
    requires Has(l, e.key) && a < |l|
    requires forall i | 0 <= i < |l| :: Find(l, l[i].key) == i
    ensures |Touch(l, e)| == |l| && Find(Touch(l, e), Touch(l, e)[a].key) == a
  {
    var t := Touch(l, e);
    var i := Find(l, e.key);
    forall b | 0 <= b < a ensures t[b].key != t[a].key {
      TouchAt(l, e, a);
      var a' := if a <= i then a - 1 else a;
      assert Find(l, l[a'].key) == a';
      if b > 0 {
        TouchAt(l, e, b);
        var b' := if b <= i then b - 1 else b;
        assert Find(l, l[b'].key) == b';
      }
    }
    FindIs(t, t[a].key, a);
  }

  lemma HasTouched(l: seq<Entry<bytes>>, e: Entry<bytes>, k: ChunkKey)
    requires Has(l, e.key) && Has(l, k)
    ensures Has(Touch(l, e), k)
  {
    var i, j := Find(l, e.key), Find(l, k);
    if j != i { TouchAt(l, e, if j < i then j + 1 else j); } else { assert Touch(l, e)[0] == e; }
    HasIffKey(Touch(l, e), k);
  }

  lemma MoveLinkedAt(items: map<ChunkKey, bytes>, order: seq<ChunkKey>, l: seq<Entry<bytes>>,
                     k: ChunkKey, data: bytes, a: nat)
    requires Linked(items, order, l) && k in items && k in order && a < |l|
    ensures |Front(order, k)| == |Touch(l, Node(k, data))| == |l|
    ensures LinkedAt(items[k := data], Front(order, k), Touch(l, Node(k, data)), a)
  {
    FindNode(items, order, l, k);
    var e := Node(k, data);
    var i := Find(l, k);
    forall j | 0 <= j < |l| ensures Find(l, l[j].key) == j { assert LinkedAt(items, order, l, j); }
    FindTouched(l, e, a);
    if a > 0 {
      TouchAt(l, e, a);
      var a' := if a <= i then a - 1 else a;
      assert LinkedAt(items, order, l, a') && Front(order, k)[a] == order[a'];
    }
  }

  lemma MoveLinked(items: map<ChunkKey, bytes>, order: seq<ChunkKey>, l: seq<Entry<bytes>>, k: ChunkKey, data: bytes)
    requires Linked(items, order, l) && k in items
    ensures k in order && Linked(items[k := data], Front(order, k), Touch(l, Node(k, data)))
    ensures Sum(Touch(l, Node(k, data))) == Sum(l) - |items[k]| + |data|
  {
    FindNode(items, order, l, k);
    var items', order', t := items[k := data], Front(order, k), Touch(l, Node(k, data));
    TouchSum(l, Node(k, data), |t|);
    forall a | 0 <= a < |t| ensures LinkedAt(items', order', t, a) {
      MoveLinkedAt(items, order, l, k, data, a);
    }
    forall x | x in items' ensures Has(t, x) { HasTouched(l, Node(k, data), x); }
  }

  lemma DropLinked(items: map<ChunkKey, bytes>, order: seq<ChunkKey>, l: seq<Entry<bytes>>)
    requires Linked(items, order, l) && l != []
    ensures var n := |l| - 1;
            && order[n] in items
            && l[n] == Node(order[n], items[order[n]])
            && Linked(items - {order[n]}, order[..n], l[..n])
            && Sum(l) == Sum(l[..n]) + |items[order[n]]|
  {
    var n := |l| - 1;
    assert LinkedAt(items, order, l, n);
    SumToSame(l, l[..n], n);
    forall i | 0 <= i < n ensures LinkedAt(items - {order[n]}, order[..n], l[..n], i) {
      assert LinkedAt(items, order, l, i);
      FindPrefix(l, order[i], n);
    }
    forall k | k in items - {order[n]} ensures Has(l[..n], k) {
      FindPrefix(l, k, n);
    }
  }

  lemma FindPushed(e: Entry<bytes>, l: seq<Entry<bytes>>, k: ChunkKey)
    ensures Find([e] + l, k) == if k == e.key then 0 else Find(l, k) + 1
  {
    FindIs([e] + l, k, if k == e.key then 0 else Find(l, k) + 1);
  }

  lemma PushLinked(items: map<ChunkKey, bytes>, order: seq<ChunkKey>, l: seq<Entry<bytes>>, k: ChunkKey, data: bytes)
    requires Linked(items, order, l) && k !in items
    ensures Linked(items[k := data], [k] + order, [Node(k, data)] + l)
    ensures Sum([Node(k, data)] + l) == |data| + Sum(l)
  {
    SumHeadTo(Node(k, data), l, |l|);
    var items', order', t := items[k := data], [k] + order, [Node(k, data)] + l;
    forall i | 0 <= i < |t| ensures LinkedAt(items', order', t, i) {
      if i > 0 { assert LinkedAt(items, order, l, i - 1); }
      FindPushed(Node(k, data), l, order'[i]);
    }
    forall x | x in items' ensures Has(t, x) {
      FindPushed(Node(k, data), l, x);
    }
  }

  /** The log after the entries from position m on were appended, last one first. */
  function Log(log: seq<Entry<bytes>>, l: seq<Entry<bytes>>, m: nat): seq<Entry<bytes>>
    requires m <= |l|
    decreases |l| - m
  {
    if m == |l| then log else Log(log, l, m + 1) + [l[m]]
  }

  lemma {:induction false} LogIsTail(log: seq<Entry<bytes>>, l: seq<Entry<bytes>>, m: nat)
    requires m <= |l|
    ensures Log(log, l, m) == log + FromTail(l, m)
    decreases |l| - m
  {
    if m < |l| { LogIsTail(log, l, m + 1); }
  }

  /** One round of the eviction loop. */
  lemma EvictOne(log: seq<Entry<bytes>>, l: seq<Entry<bytes>>, m: nat, room: int)
    requires 0 < m <= |l| && SumTo(l, m) > room
    ensures KeepLen(l, m, room) == KeepLen(l, m - 1, room)
    ensures Log(log, l, m - 1) == Log(log, l, m) + [l[m - 1]]
    ensures l[..m][..m - 1] == l[..m - 1] && l[..m][m - 1] == l[m - 1]
  {
  }

  // ---------------------------------------------------------------- one shard

  class Shard {
    ghost var Contents: seq<Entry<bytes>>  // the cache as a list, most recently used first

    var items: map<ChunkKey, bytes>
    var evictList: seq<ChunkKey>           // most recently used first
    const capacity: int
    var used: int
    var evicted: seq<Entry<bytes>>         // the calls of onEvict, in order

    ghost predicate Valid()
      reads this
    {
      Linked(items, evictList, Contents) && used == Sum(Contents)
    }

    constructor (capacity: int)
      ensures Valid() && Contents == [] && this.capacity == capacity && evicted == []
    {
      this.capacity := capacity;
      items, evictList, used, evicted, Contents := map[], [], 0, [], [];
    }

    method Get(k: ChunkKey) returns (data: bytes, ok: bool)
      requires Valid()
      modifies this
      ensures Valid()
      ensures ok == Has(old(Contents), k)
      ensures ok ==> data == old(Contents)[Find(old(Contents), k)].val
      ensures Contents == AfterGet(old(Contents), k)
      ensures evicted == old(evicted)
    {
      FindNode(items, evictList, Contents, k);
      if k !in items {
        return [], false;
      }
      MoveLinked(items, evictList, Contents, k, items[k]);
      assert items[k := items[k]] == items;
      evictList := Front(evictList, k);
      Contents := Touch(Contents, Node(k, items[k]));
      data, ok := items[k], true;
    }

    method EvictTail()
      requires Valid()
      modifies this
      ensures Valid()
      ensures items.Keys <= old(items.Keys)
      ensures old(Contents) == [] ==> Contents == [] && evicted == old(evicted)
      ensures old(Contents) != [] ==>
                && Contents == old(Contents)[..|old(Contents)| - 1]
                && evicted == old(evicted) + [old(Contents)[|old(Contents)| - 1]]
    {
      if |evictList| == 0 {
        return;
      }
      DropLinked(items, evictList, Contents);
      var n := |evictList| - 1;
      var k := evictList[n];
      var data := items[k];
      evictList, Contents := evictList[..n], Contents[..n];
      items := items - {k};
      used := used - |data|;
      evicted := evicted + [Node(k, data)];
    }

    /** The branch of Put for a key that is present: no eviction, whatever the new size. */
    method Overwrite(k: ChunkKey, data: bytes)
      requires Valid() && k in items
      modifies this
      ensures Valid() && evicted == old(evicted)
      ensures Contents == Touch(old(Contents), Node(k, data))
    {
      MoveLinked(items, evictList, Contents, k, data);
      evictList := Front(evictList, k);
      used := used - |items[k]|;
      items := items[k := data];
      used := used + |data|;
      Contents := Touch(Contents, Node(k, data));
    }

    /** The eviction loop: from the tail, until the rest and size more bytes fit or nothing is left. */
    method MakeRoom(size: nat)
      requires Valid()
      modifies this
      ensures Valid() && items.Keys <= old(items.Keys)
      ensures Contents == Keep(old(Contents), capacity - size)
      ensures evicted == old(evicted) + FromTail(old(Contents), |Contents|)
    {
      ghost var was := Contents;
      ghost var m := |was|;
      ghost var room := capacity - size;
      while used + size > capacity && |evictList| > 0
        invariant Valid() && items.Keys <= old(items.Keys)
        invariant 0 <= m <= |was| && Contents == was[..m]
        invariant KeepLen(was, m, room) == KeepLen(was, |was|, room)
        invariant evicted == Log(old(evicted), was, m)
        decreases m
      {
        SumToSame(was, Contents, m);
        EvictOne(old(evicted), was, m, room);
        EvictTail();
        m := m - 1;
      }
      SumToSame(was, Contents, m);
      LogIsTail(old(evicted), was, m);
    }

    method Put(k: ChunkKey, data: bytes)
      requires Valid()
      modifies this
      ensures Valid()
      ensures Contents == AfterPut(old(Contents), capacity, Node(k, data))
      ensures evicted == old(evicted) + Victims(old(Contents), capacity, Node(k, data))
    {
      var size := |data|;
      FindNode(items, evictList, Contents, k);
      if k in items {
        Overwrite(k, data);
        return;
      }
      MakeRoom(size);
      PushLinked(items, evictList, Contents, k, data);
      evictList := [k] + evictList;
      items := items[k := data];
      used := used + size;
      Contents := [Node(k, data)] + Contents;
    }
  }

  // ---------------------------------------------------------------- the cache

  class HotCache {
    const shards: seq<Shard>
    const capacityBytes: int
    var hits: nat
    var misses: nat

    ghost predicate Valid()
      reads this, shards
    {
      && |shards| == NUM_SHARDS
      && (forall i, j | 0 <= i < j < NUM_SHARDS :: shards[i] != shards[j])
      && (forall i | 0 <= i < NUM_SHARDS :: shards[i].Valid() && shards[i].capacity == PerShard(capacityBytes))
    }

    /** The whole cache as lists. */
    ghost function State(): Shards<bytes>
      requires |shards| == NUM_SHARDS
      reads this, shards
    {
      seq(NUM_SHARDS, i requires 0 <= i < NUM_SHARDS reads this, shards => shards[i].Contents)
    }

    constructor (capacityBytes: int)
      ensures Valid() && fresh(shards) && this.capacityBytes == capacityBytes
      ensures State() == Empty() && hits == 0 && misses == 0
      ensures forall s | s in shards :: s.evicted == []
      ensures forall s | s in shards ::
                if capacityBytes >= 0 then 256 * s.capacity <= capacityBytes < 256 * (s.capacity + 1)
                else 256 * (s.capacity - 1) < capacityBytes <= 256 * s.capacity
    {
      ShareOfCapacity(capacityBytes);
      var perShard := PerShard(capacityBytes);
      var all: seq<Shard> := [];
      for i := 0 to NUM_SHARDS
        invariant |all| == i && fresh(all)
        invariant forall a, b | 0 <= a < b < i :: all[a] != all[b]
        invariant forall s | s in all :: s.Valid() && s.Contents == [] && s.capacity == perShard && s.evicted == []
      {
        var s := new Shard(perShard);
        all := all + [s];
      }
      shards := all;
      this.capacityBytes := capacityBytes;
      hits, misses := 0, 0;
    }

    method ShardFor(k: ChunkKey) returns (i: nat)
      requires |shards| == NUM_SHARDS
      ensures i == ShardOf(k)
    {
      var h := Fnv1aHash32(k);
      i := h % NUM_SHARDS;
    }

    method Get(k: ChunkKey) returns (data: bytes, ok: bool)
      requires Valid()
      modifies this, shards
      ensures Valid() && State() == Got(old(State()), k)
      ensures ok == Resident(old(State()), k)
      ensures ok ==> var l := ListOf(old(State()), k); data == l[Find(l, k)].val
      ensures hits == old(hits) + (if ok then 1 else 0) && misses == old(misses) + (if ok then 0 else 1)
      ensures forall s | s in shards :: s.evicted == old(s.evicted)
    {
      var i := ShardFor(k);
      data, ok := shards[i].Get(k);
      if ok { hits := hits + 1; } else { misses := misses + 1; }
    }

    method Put(k: ChunkKey, data: bytes)
      requires Valid()
      modifies shards
      ensures Valid() && State() == Stored(old(State()), capacityBytes, Node(k, data))
      ensures var s := shards[ShardOf(k)];
              s.evicted == old(s.evicted) + Evicted(old(State()), capacityBytes, Node(k, data))
      ensures forall i | 0 <= i < NUM_SHARDS && i != ShardOf(k) :: shards[i].evicted == old(shards[i].evicted)
    {
      var i := ShardFor(k);
      shards[i].Put(k, data);
    }
  }
}
