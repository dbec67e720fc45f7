/** The shape and the size of the hot cache over every run of the whole proxy: Gets and Puts of
    concurrent tasks interleave, several tasks may Put the same chunk, and a Put may come long
    after the miss that led to it. */
module SystemMemory {
  import opened Basics
  import opened Fnv
  import opened HotSpec
  import opened LruSpec
  import opened System
  import opened SystemSafety
  import opened SystemTheorems
  import SF = SingleFlight

  /** A shard has each key once, only keys of its own, and is within its capacity or holds at
      most one entry. */
  ghost predicate ShardOk(l: seq<Entry<Addr>>, shard: nat, capacity: int) {
    && Distinct(l)
    && (forall e | e in l :: ShardOf(e.key) == shard)
    && (Sum(l) <= capacity || |l| <= 1)
  }

  ghost predicate HotOk(s: State) {
    forall i | 0 <= i < NUM_SHARDS :: ShardOk(s.hot[i], i, PerShard(s.capacity))
  }

  // ---------------------------------------------------------------- one shard

  lemma TouchKeepsShard(l: seq<Entry<Addr>>, shard: nat, capacity: int, e: Entry<Addr>)
    requires ShardOk(l, shard, capacity) && Has(l, e.key) && l[Find(l, e.key)].size == e.size
    ensures ShardOk(Touch(l, e), shard, capacity)
  {
    TouchHolds(l, e);
    TouchSum(l, e, |Touch(l, e)|);
    assert l[Find(l, e.key)] in l;
  }

  lemma GetKeepsShard(l: seq<Entry<Addr>>, shard: nat, capacity: int, k: ChunkKey)
    requires ShardOk(l, shard, capacity)
    ensures ShardOk(AfterGet(l, k), shard, capacity)
  {
    if Has(l, k) { TouchKeepsShard(l, shard, capacity, l[Find(l, k)]); }
  }

  lemma KeptDistinct(l: seq<Entry<Addr>>, e: Entry<Addr>, m: nat)
    requires Distinct(l) && !Has(l, e.key) && m <= |l|
    ensures Distinct([e] + l[..m]) && forall x | x in [e] + l[..m] :: x == e || x in l
  {
  }

  /** Putting a chunk again keeps its size, putting a new one evicts until it fits or is alone. */
  lemma PutKeepsShard(l: seq<Entry<Addr>>, shard: nat, capacity: int, e: Entry<Addr>)
    requires ShardOk(l, shard, capacity) && ShardOf(e.key) == shard
    requires Has(l, e.key) ==> l[Find(l, e.key)].size == e.size
    ensures ShardOk(AfterPut(l, capacity, e), shard, capacity)
  {
    if Has(l, e.key) {
      TouchKeepsShard(l, shard, capacity, e);
    } else {
      var m := KeepLen(l, |l|, capacity - e.size);
      KeepLenIsLongest(l, |l|, capacity - e.size);
      SumAfterPut(l, capacity, e);
      KeptDistinct(l, e, m);
    }
  }

  // ---------------------------------------------------------------- every step

  /** Two right entries of one chunk have one size. */
  lemma OneSize(s: State, e: Entry<Addr>, e': Entry<Addr>)
    requires Inv(s) && EntryOk(s.sf, e) && EntryOk(s.sf, e') && e.key == e'.key
    ensures e.size == e'.size <= CHUNK_SIZE
  {
    assert SF.CellOk(s.sf, e.val) && SF.CellOk(s.sf, e'.val);
  }

  lemma LookKeepsHot(s: State, t: TaskId)
    requires Inv(s) && Enabled(s, Look(t)) && HotOk(s)
    ensures HotOk(DoLook(s, t))
  {
    assert TaskOk(s, t);
    var k := KeyOf(s.tasks[t]);
    GetKeepsShard(ListOf(s.hot, k), ShardOf(k), PerShard(s.capacity), k);
  }

  lemma StoreKeepsHot(s: State, t: TaskId)
    requires Inv(s) && Enabled(s, Store(t)) && HotOk(s)
    ensures HotOk(DoStore(s, t))
  {
    assert TaskOk(s, t);
    var (k, data) := (KeyOf(s.tasks[t]), s.tasks[t].phase.data);
    var e, l := Entry(k, |s.sf.mem[data].content|, data), ListOf(s.hot, k);
    if Has(l, k) {
      assert l[Find(l, k)] in s.hot[ShardOf(k)];
      OneSize(s, e, l[Find(l, k)]);
    }
    PutKeepsShard(l, ShardOf(k), PerShard(s.capacity), e);
  }

  lemma StepKeepsHot(s: State, a: Action)
    requires Inv(s) && Enabled(s, a) && HotOk(s)
    ensures HotOk(Step(s, a)) && Step(s, a).capacity == s.capacity
  {
    match a
    case Look(t) => LookKeepsHot(s, t);
    case Store(t) => StoreKeepsHot(s, t);
    case _ => OtherKeepsHot(s, a);
  }

  lemma OtherKeepsHot(s: State, a: Action)
    requires Inv(s) && Enabled(s, a) && !a.Look? && !a.Store?
    ensures Step(s, a).hot == s.hot && Step(s, a).capacity == s.capacity
  {
    match a
    case Return(t, addr) => assert TaskOk(s, t);
    case ReadCold(t, addr) => assert TaskOk(s, t);
    case Acquire(t, buf) => assert TaskOk(s, t);
    case Write(t) => assert TaskOk(s, t);
    case Disconnect(t, n) => assert TaskOk(s, t);
    case _ =>
  }

  lemma {:induction false} RunKeepsHot(s: State, actions: seq<Action>)
    requires Inv(s) && CanRun(s, actions) && HotOk(s)
    ensures HotOk(Run(s, actions)) && Run(s, actions).capacity == s.capacity
    decreases |actions|
  {
    if actions != [] {
      StepKeepsInv(s, actions[0]);
      StepKeepsHot(s, actions[0]);
      RunKeepsHot(Step(s, actions[0]), actions[1..]);
    }
  }

  // ---------------------------------------------------------------- theorems

  lemma StartsOk(s: State)
    requires Initial(s)
    ensures HotOk(s)
  {
  }

  /** On every run the map of each shard can be a map: no key twice, each key on its shard. */
  lemma ShardsStayOrdered(s: State, actions: seq<Action>, i: nat)
    requires Initial(s) && Inv(s) && CanRun(s, actions) && i < NUM_SHARDS
    ensures Distinct(Run(s, actions).hot[i])
    ensures forall e | e in Run(s, actions).hot[i] :: ShardOf(e.key) == i
  {
    StartsOk(s);
    RunKeepsHot(s, actions);
    assert ShardOk(Run(s, actions).hot[i], i, PerShard(s.capacity));
  }

  /** On every run, exactly when a shard's byte counter is within its capacity: when the entry
      used last, which is the first, is by itself. */
  lemma ShardFitsIff(s: State, actions: seq<Action>, i: nat)
    requires Initial(s) && Inv(s) && CanRun(s, actions) && i < NUM_SHARDS
    ensures var l := Run(s, actions).hot[i];
            Sum(l) <= PerShard(s.capacity) <==> (if l == [] then 0 else l[0].size) <= PerShard(s.capacity)
  {
    StartsOk(s);
    RunKeepsHot(s, actions);
    var l := Run(s, actions).hot[i];
    assert ShardOk(l, i, PerShard(s.capacity));
    if l != [] {
      assert SumTo(l, 1) == SumTo(l, 0) + l[0].size;
      SumToMonotone(l, 1, |l|);
    }
  }

  lemma ShardStaysBounded(s: State, l: seq<Entry<Addr>>, i: nat)
    requires Inv(s) && HotOk(s) && i < NUM_SHARDS && l == s.hot[i]
    ensures Sum(l) <= Max(PerShard(s.capacity), CHUNK_SIZE)
  {
    forall e | e in l ensures e.size <= CHUNK_SIZE {
      assert EntryOk(s.sf, e);
      OneSize(s, e, e);
    }
    assert ShardOk(l, i, PerShard(s.capacity));
    SumAtMost(l, PerShard(s.capacity), CHUNK_SIZE);
  }

  /** However handlers and workers interleave and however long they run, the hot cache never
      holds more than its configured capacity, or one full chunk per shard if that is more. */
  lemma MemoryIsBounded(s: State, actions: seq<Action>)
    requires Initial(s) && Inv(s) && CanRun(s, actions)
    ensures BytesOn(Run(s, actions).hot, NUM_SHARDS) <= Max(s.capacity, NUM_SHARDS * CHUNK_SIZE)
  {
    StartsOk(s);
    RunKeepsHot(s, actions);
    var u := Run(s, actions);
    forall i | 0 <= i < NUM_SHARDS ensures Sum(u.hot[i]) <= Max(PerShard(u.capacity), CHUNK_SIZE) {
      ShardStaysBounded(u, u.hot[i], i);
    }
    BoundedCache(u.hot, u.capacity);
  }
}
