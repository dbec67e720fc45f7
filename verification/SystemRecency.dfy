/** The order of the hot cache under concurrency: on every run its lists are sorted by last use,
    and an entry leaves only for want of room. */
module SystemRecency {
  import opened Basics
  import opened Fnv
  import opened LruSpec
  import opened HotSpec
  import opened System
  import opened SystemSafety
  import opened SystemTheorems
  import opened SystemMemory
  import SF = SingleFlight

  /** When each chunk was last looked up in memory or stored there, in numbers of actions. */
  type LastUse = map<ChunkKey, nat>

  /** The action looks the chunk up in memory or stores it there. */
  predicate Uses(s: State, a: Action, k: ChunkKey) {
    (a.Look? || a.Store?) && a.t in s.tasks && WorksOn(s.tasks[a.t], k)
  }

  ghost predicate Updated(s: State, a: Action, last: LastUse, last': LastUse, now: nat) {
    forall k :: if Uses(s, a, k) then k in last' && last'[k] == now
                else (k in last' <==> k in last) && (k in last ==> last'[k] == last[k])
  }

  function Stamped(s: State, a: Action, last: LastUse, now: nat): (last': LastUse)
    requires Inv(s) && Enabled(s, a)
    ensures Updated(s, a, last, last', now)
  {
    if a.Look? || a.Store? then assert TaskOk(s, a.t); last[KeyOf(s.tasks[a.t]) := now] else last
  }

  ghost function LastUses(s: State, actions: seq<Action>, last: LastUse, now: nat): LastUse
    requires Inv(s) && CanRun(s, actions)
    decreases |actions|
  {
    if actions == [] then last
    else
      StepKeepsInv(s, actions[0]);
      LastUses(Step(s, actions[0]), actions[1..], Stamped(s, actions[0], last, now), now + 1)
  }

  // ---------------------------------------------------------------- one shard

  ghost predicate Sorted(l: seq<Entry<Addr>>, last: LastUse, now: nat) {
    && (forall e | e in l :: e.key in last && last[e.key] < now)
    && (forall i, j | 0 <= i < j < |l| :: last[l[i].key] > last[l[j].key])
  }

  lemma NotUsed(l: seq<Entry<Addr>>, last: LastUse, last': LastUse, now: nat)
    requires Sorted(l, last, now)
    requires forall e | e in l :: e.key in last' && last'[e.key] == last[e.key]
    ensures Sorted(l, last', now + 1)
  {
    forall i, j | 0 <= i < j < |l| ensures last'[l[i].key] > last'[l[j].key] {
      assert l[i] in l && l[j] in l;
    }
  }

  lemma InFront(l: seq<Entry<Addr>>, last: LastUse, now: nat, e: Entry<Addr>)
    requires Sorted(l, last, now) && forall x | x in l :: x.key != e.key
    ensures Sorted([e] + l, last[e.key := now], now + 1)
  {
    NotUsed(l, last, last[e.key := now], now);
  }

  /** The list without its part from a to b. */
  lemma CutSorted(l: seq<Entry<Addr>>, last: LastUse, now: nat, a: nat, b: nat)
    requires Sorted(l, last, now) && a <= b <= |l|
    ensures Sorted(l[..a] + l[b..], last, now)
  {
    var w := l[..a] + l[b..];
    forall i, j | 0 <= i < j < |w| ensures last[w[i].key] > last[w[j].key] {
      var i', j' := if i < a then i else i + (b - a), if j < a then j else j + (b - a);
      assert w[i] == l[i'] && w[j] == l[j'];
    }
  }

  lemma WithoutSorted(l: seq<Entry<Addr>>, last: LastUse, now: nat, k: ChunkKey)
    requires Sorted(l, last, now) && Distinct(l)
    ensures Sorted(Without(l, k), last, now) && forall x | x in Without(l, k) :: x.key != k
  {
    if Has(l, k) { CutSorted(l, last, now, Find(l, k), Find(l, k) + 1); }
  }

  lemma TouchSorted(l: seq<Entry<Addr>>, last: LastUse, now: nat, e: Entry<Addr>)
    requires Sorted(l, last, now) && Distinct(l)
    ensures Sorted(Touch(l, e), last[e.key := now], now + 1)
  {
    WithoutSorted(l, last, now, e.key);
    InFront(Without(l, e.key), last, now, e);
  }

  lemma GetSorted(l: seq<Entry<Addr>>, last: LastUse, now: nat, k: ChunkKey)
    requires Sorted(l, last, now) && Distinct(l)
    ensures Sorted(AfterGet(l, k), last[k := now], now + 1)
  {
    if Has(l, k) { TouchSorted(l, last, now, l[Find(l, k)]); } else { NotUsed(l, last, last[k := now], now); }
  }

  lemma PutSorted(l: seq<Entry<Addr>>, last: LastUse, now: nat, capacity: int, e: Entry<Addr>)
    requires Sorted(l, last, now) && Distinct(l)
    ensures Sorted(AfterPut(l, capacity, e), last[e.key := now], now + 1)
  {
    if Has(l, e.key) {
      TouchSorted(l, last, now, e);
    } else {
      var m := KeepLen(l, |l|, capacity - e.size);
      CutSorted(l, last, now, m, |l|);
      assert l[..m] + l[|l|..] == l[..m];
      InFront(l[..m], last, now, e);
    }
  }

  // ---------------------------------------------------------------- every step

  ghost predicate AllSorted(hot: Shards<Addr>, last: LastUse, now: nat) {
    forall i | 0 <= i < NUM_SHARDS :: Sorted(hot[i], last, now)
  }

  lemma OneShardMoves(s: State, hot: Shards<Addr>, last: LastUse, now: nat, k: ChunkKey, l: seq<Entry<Addr>>)
    requires HotOk(s) && AllSorted(s.hot, last, now)
    requires hot == s.hot[ShardOf(k) := l] && Sorted(l, last[k := now], now + 1)
    ensures AllSorted(hot, last[k := now], now + 1)
  {
    forall i | 0 <= i < NUM_SHARDS ensures Sorted(hot[i], last[k := now], now + 1) {
      if i != ShardOf(k) {
        assert ShardOk(s.hot[i], i, PerShard(s.capacity));
        NotUsed(s.hot[i], last, last[k := now], now);
      }
    }
  }

  lemma LookSorts(s: State, t: TaskId, last: LastUse, now: nat)
    requires Inv(s) && Enabled(s, Look(t)) && HotOk(s) && AllSorted(s.hot, last, now)
    ensures AllSorted(DoLook(s, t).hot, Stamped(s, Look(t), last, now), now + 1)
  {
    assert TaskOk(s, t);
    var k := KeyOf(s.tasks[t]);
    var l := ListOf(s.hot, k);
    assert ShardOk(l, ShardOf(k), PerShard(s.capacity));
    GetSorted(l, last, now, k);
    OneShardMoves(s, DoLook(s, t).hot, last, now, k, AfterGet(l, k));
  }

  lemma StoreSorts(s: State, t: TaskId, last: LastUse, now: nat)
    requires Inv(s) && Enabled(s, Store(t)) && HotOk(s) && AllSorted(s.hot, last, now)
    ensures AllSorted(DoStore(s, t).hot, Stamped(s, Store(t), last, now), now + 1)
  {
    assert TaskOk(s, t);
    var (k, data) := (KeyOf(s.tasks[t]), s.tasks[t].phase.data);
    var e, l := Entry(k, |s.sf.mem[data].content|, data), ListOf(s.hot, k);
    assert ShardOk(l, ShardOf(k), PerShard(s.capacity));
    PutSorted(l, last, now, PerShard(s.capacity), e);
    OneShardMoves(s, DoStore(s, t).hot, last, now, k, AfterPut(l, PerShard(s.capacity), e));
  }

  lemma StepSorts(s: State, a: Action, last: LastUse, now: nat)
    requires Inv(s) && Enabled(s, a) && HotOk(s) && AllSorted(s.hot, last, now)
    ensures AllSorted(Step(s, a).hot, Stamped(s, a, last, now), now + 1)
  {
    match a
    case Look(t) => LookSorts(s, t, last, now);
    case Store(t) => StoreSorts(s, t, last, now);
    case _ =>
      OtherKeepsHot(s, a);
      forall i | 0 <= i < NUM_SHARDS ensures Sorted(s.hot[i], last, now + 1) { NotUsed(s.hot[i], last, last, now); }
  }

  lemma {:induction false} RunSorts(s: State, actions: seq<Action>, last: LastUse, now: nat)
    requires Inv(s) && CanRun(s, actions) && HotOk(s) && AllSorted(s.hot, last, now)
    ensures AllSorted(Run(s, actions).hot, LastUses(s, actions, last, now), now + |actions|)
    decreases |actions|
  {
    if actions != [] {
      var a := actions[0];
      StepKeepsInv(s, a);
      StepKeepsHot(s, a);
      StepSorts(s, a, last, now);
      RunSorts(Step(s, a), actions[1..], Stamped(s, a, last, now), now + 1);
    }
  }

  /** On every run each shard's list is sorted by last use, the latest first, whichever handlers
      and workers looked its chunks up or stored them. */
  lemma RecentFirst(s: State, actions: seq<Action>, shard: nat, i: nat, j: nat)
    requires Initial(s) && Inv(s) && CanRun(s, actions) && shard < NUM_SHARDS
    requires i < j < |Run(s, actions).hot[shard]|
    ensures var (l, last) := (Run(s, actions).hot[shard], LastUses(s, actions, map[], 0));
            l[i].key in last && l[j].key in last && last[l[i].key] > last[l[j].key]
  {
    StartsOk(s);
    RunSorts(s, actions, map[], 0);
    var l, last := Run(s, actions).hot[shard], LastUses(s, actions, map[], 0);
    assert Sorted(l, last, |actions|) && l[i] in l && l[j] in l;
  }

  // ---------------------------------------------------------------- evictions

  lemma GetDropsNothing(l: seq<Entry<Addr>>, k: ChunkKey)
    ensures forall x | x in l :: x in AfterGet(l, k)
  {
    if Has(l, k) {
      var i := Find(l, k);
      forall x | x in l ensures x in AfterGet(l, k) { if x != l[i] { assert x in l[..i] + l[i + 1..]; } }
    }
  }

  lemma KeptStays(l: seq<Entry<Addr>>, room: int, e: Entry<Addr>, p: nat)
    requires p < KeepLen(l, |l|, room)
    ensures l[p] in [e] + Keep(l, room)
  {
    assert Keep(l, room)[p] == l[p];
  }

  lemma BeyondKept(l: seq<Entry<Addr>>, room: int, m: nat, p: nat)
    requires m == KeepLen(l, |l|, room) && m <= p < |l|
    ensures SumTo(l, p + 1) > room
  {
    KeepLenIsLongest(l, |l|, room);
    SumToMonotone(l, m + 1, p + 1);
  }

  lemma InsertDrops(l: seq<Entry<Addr>>, room: int, e: Entry<Addr>, p: nat)
    requires p < |l| && l[p] !in [e] + Keep(l, room)
    ensures KeepLen(l, |l|, room) <= p
  {
    if p < KeepLen(l, |l|, room) { KeptStays(l, room, e, p); }
  }

  lemma OverwriteDropsNone(l: seq<Entry<Addr>>, capacity: int, e: Entry<Addr>, x: Entry<Addr>)
    requires Distinct(l) && x in l && x.key != e.key && Has(l, e.key)
    ensures x in AfterPut(l, capacity, e)
  {
    TouchHolds(l, e);
  }

  lemma PutDrops(l: seq<Entry<Addr>>, capacity: int, e: Entry<Addr>, p: nat)
    requires Distinct(l) && p < |l| && l[p].key != e.key && l[p] !in AfterPut(l, capacity, e)
    ensures !Has(l, e.key) && KeepLen(l, |l|, capacity - e.size) <= p
  {
    if Has(l, e.key) { OverwriteDropsNone(l, capacity, e, l[p]); } else { InsertDrops(l, capacity - e.size, e, p); }
  }

  lemma NoRoom(l: seq<Entry<Addr>>, capacityBytes: int, capacity: int, e: Entry<Addr>, p: nat)
    requires Distinct(l) && p < |l| && l[p].key != e.key && e.size > 0 && capacity == PerShard(capacityBytes)
    requires l[p] !in AfterPut(l, capacity, e)
    ensures !Has(l, e.key) && 256 * (SumTo(l, p + 1) + e.size) > capacityBytes
  {
    PutDrops(l, capacity, e, p);
    BeyondShare(l, capacityBytes, capacity - e.size, e.size, p);
  }

  lemma BeyondShare(l: seq<Entry<Addr>>, capacityBytes: int, room: int, size: nat, p: nat)
    requires room == PerShard(capacityBytes) - size && KeepLen(l, |l|, room) <= p < |l| && size > 0
    ensures 256 * (SumTo(l, p + 1) + size) > capacityBytes
  {
    var m := KeepLen(l, |l|, room);
    BeyondKept(l, room, m, p);
    FitsShare(capacityBytes, SumTo(l, p + 1) + size);
  }

  lemma OnlyStoreDrops(u: State, a: Action, shard: nat)
    requires Inv(u) && Enabled(u, a) && shard < NUM_SHARDS && !a.Store?
    ensures forall x | x in u.hot[shard] :: x in Step(u, a).hot[shard]
  {
    match a
    case Look(t) =>
      assert TaskOk(u, t);
      GetDropsNothing(ListOf(u.hot, KeyOf(u.tasks[t])), KeyOf(u.tasks[t]));
    case _ => OtherKeepsHot(u, a);
  }

  lemma StoreDrops(u: State, t: TaskId, shard: nat, p: nat) returns (k: ChunkKey, data: Addr)
    requires Inv(u) && HotOk(u) && Enabled(u, Store(t)) && shard < NUM_SHARDS && p < |u.hot[shard]|
    requires forall x | x in DoStore(u, t).hot[shard] :: x.key != u.hot[shard][p].key
    ensures WorksOn(u.tasks[t], k) && u.tasks[t].phase.data == data && data in u.sf.mem
    ensures ShardOf(k) == shard && !Resident(u.hot, k)
    ensures 256 * (SumTo(u.hot[shard], p + 1) + |u.sf.mem[data].content|) > u.capacity
  {
    assert TaskOk(u, t);
    k, data := KeyOf(u.tasks[t]), u.tasks[t].phase.data;
    var e, l := Entry(k, |u.sf.mem[data].content|, data), u.hot[shard];
    assert l[p] in l && ShardOk(l, shard, PerShard(u.capacity));
    StoredAt(u, t, k, e, shard);
    assert e in AfterPut(l, PerShard(u.capacity), e);
    assert SF.CellOk(u.sf, data);
    NoRoom(l, u.capacity, PerShard(u.capacity), e, p);
  }

  lemma StoredAt(u: State, t: TaskId, k: ChunkKey, e: Entry<Addr>, shard: nat)
    requires Inv(u) && Enabled(u, Store(t)) && shard < NUM_SHARDS && TaskOk(u, t) && k == KeyOf(u.tasks[t])
    requires u.tasks[t].phase.data in u.sf.mem
    requires e == Entry(k, |u.sf.mem[u.tasks[t].phase.data].content|, u.tasks[t].phase.data)
    ensures DoStore(u, t).hot[shard] ==
            if shard == ShardOf(k) then AfterPut(u.hot[shard], PerShard(u.capacity), e) else u.hot[shard]
  {
  }

  /** On every run an entry leaves the hot cache only when a chunk that is not there is stored,
      and it, the entries in front of it and that chunk do not fit the shard together. */
  lemma EvictedForRoom(s: State, actions: seq<Action>, a: Action, shard: nat, p: nat)
    returns (k: ChunkKey, data: Addr)
    requires Initial(s) && Inv(s) && CanRun(s, actions) && Enabled(Run(s, actions), a) && shard < NUM_SHARDS
    requires var (u, v) := (Run(s, actions), Step(Run(s, actions), a));
             p < |u.hot[shard]| && forall x | x in v.hot[shard] :: x.key != u.hot[shard][p].key
    ensures var u := Run(s, actions);
            && a.Store? && WorksOn(u.tasks[a.t], k) && u.tasks[a.t].phase.data == data && data in u.sf.mem
            && ShardOf(k) == shard && !Resident(u.hot, k)
            && 256 * (SumTo(u.hot[shard], p + 1) + |u.sf.mem[data].content|) > u.capacity
  {
    StartsOk(s);
    RunKeepsHot(s, actions);
    assert Run(s, actions).hot[shard][p] in Run(s, actions).hot[shard];
    if !a.Store? {
      OnlyStoreDrops(Run(s, actions), a, shard);
      assert false;
    }
    k, data := StoreDrops(Run(s, actions), a.t, shard, p);
  }
}
