/** One shard of the hot cache as a list of entries, most recently used first, and a
    closed form for its contents: after any demand trace a shard holds exactly the longest
    recency prefix that fits. Inclusion, residency and the memory bound follow. */
module LruSpec {
  import opened Basics

  datatype Entry<V> = Entry(key: ChunkKey, size: nat, val: V)

  /** The bytes of the first n entries. */
  function SumTo<V>(l: seq<Entry<V>>, n: nat): nat
    requires n <= |l|
  {
    if n == 0 then 0 else SumTo(l, n - 1) + l[n - 1].size
  }

  function Sum<V>(l: seq<Entry<V>>): nat {
    SumTo(l, |l|)
  }

  function FindFrom<V>(l: seq<Entry<V>>, k: ChunkKey, i: nat): (r: nat)
    requires i <= |l|
    ensures i <= r <= |l|
    ensures r < |l| ==> l[r].key == k
    ensures forall j | i <= j < r :: l[j].key != k
    decreases |l| - i
  {
    if i == |l| || l[i].key == k then i else FindFrom(l, k, i + 1)
  }

  /** The position of key k, or |l| if it is absent. */
  function Find<V>(l: seq<Entry<V>>, k: ChunkKey): (i: nat)
    ensures i <= |l|
    ensures i < |l| ==> l[i].key == k
    ensures forall j | 0 <= j < i :: l[j].key != k
  {
    FindFrom(l, k, 0)
  }

  predicate Has<V>(l: seq<Entry<V>>, k: ChunkKey) {
    Find(l, k) < |l|
  }

  function Without<V>(l: seq<Entry<V>>, k: ChunkKey): seq<Entry<V>> {
    var i := Find(l, k);
    if i < |l| then l[..i] + l[i + 1..] else l
  }

  /** The list with e at the front, in place of any entry of the same key. */
  function Touch<V>(l: seq<Entry<V>>, e: Entry<V>): seq<Entry<V>> {
    [e] + Without(l, e.key)
  }

  ghost predicate Distinct<V>(l: seq<Entry<V>>) {
    forall i, j | 0 <= i < j < |l| :: l[i].key != l[j].key
  }

  /** How many of the first n entries the eviction loop keeps when it drops entries from the
      tail until the rest occupies at most room bytes or nothing is left. */
  function KeepLen<V>(l: seq<Entry<V>>, n: nat, room: int): (m: nat)
    requires n <= |l|
    ensures m <= n
  {
    if n == 0 || SumTo(l, n) <= room then n else KeepLen(l, n - 1, room)
  }

  function Keep<V>(l: seq<Entry<V>>, room: int): seq<Entry<V>> {
    l[..KeepLen(l, |l|, room)]
  }

  function AfterGet<V>(l: seq<Entry<V>>, k: ChunkKey): seq<Entry<V>> {
    var i := Find(l, k);
    if i < |l| then Touch(l, l[i]) else l
  }

  /** The contents after Put: an overwrite moves to the front and evicts nothing. */
  function AfterPut<V>(l: seq<Entry<V>>, capacity: int, e: Entry<V>): seq<Entry<V>> {
    if Has(l, e.key) then Touch(l, e) else [e] + Keep(l, capacity - e.size)
  }

  /** The entries from position m on, last one first. */
  function FromTail<V>(l: seq<Entry<V>>, m: nat): (r: seq<Entry<V>>)
    requires m <= |l|
    ensures |r| == |l| - m
    decreases |l| - m
  {
    if m == |l| then [] else FromTail(l, m + 1) + [l[m]]
  }

  /** The entries Put hands to onEvict, in the order of the calls: least recently used first. */
  function Victims<V>(l: seq<Entry<V>>, capacity: int, e: Entry<V>): seq<Entry<V>> {
    if Has(l, e.key) then [] else FromTail(l, KeepLen(l, |l|, capacity - e.size))
  }

  /** A demand access: Get, then Put on a miss. */
  function Access<V>(l: seq<Entry<V>>, capacity: int, e: Entry<V>): seq<Entry<V>> {
    if Has(l, e.key) then AfterGet(l, e.key) else AfterPut(l, capacity, e)
  }

  /** The shard after a trace of accesses that started empty. */
  function After<V>(capacity: int, trace: seq<Entry<V>>): seq<Entry<V>> {
    if trace == [] then []
    else Access(After(capacity, trace[..|trace| - 1]), capacity, trace[|trace| - 1])
  }

  // ---------------------------------------------------------------- the reference definition

  /** The distinct entries of a trace, last use first. */
  function Recency<V>(trace: seq<Entry<V>>): seq<Entry<V>> {
    if trace == [] then [] else Touch(Recency(trace[..|trace| - 1]), trace[|trace| - 1])
  }

  /** The length of the longest prefix that fits; the head stays even if it is too big. */
  function FitLen<V>(l: seq<Entry<V>>, capacity: int): (p: nat)
    ensures p <= |l|
  {
    if l == [] then 0 else Max(1, KeepLen(l, |l|, capacity))
  }

  function Fit<V>(l: seq<Entry<V>>, capacity: int): seq<Entry<V>> {
    l[..FitLen(l, capacity)]
  }

  /** One key, one entry: chunks of immutable objects have one fixed content. */
  ghost predicate Consistent<V>(trace: seq<Entry<V>>) {
    forall e, e' | e in trace && e' in trace && e.key == e'.key :: e == e'
  }

  // ---------------------------------------------------------------- sums and prefixes

  lemma SumToMonotone<V>(l: seq<Entry<V>>, i: nat, j: nat)
    requires i <= j <= |l|
    ensures SumTo(l, i) <= SumTo(l, j)
  {
    if i < j { SumToMonotone(l, i, j - 1); }
  }

  lemma SumToSame<V>(l: seq<Entry<V>>, l': seq<Entry<V>>, n: nat)
    requires n <= |l| && n <= |l'| && forall j | 0 <= j < n :: l[j] == l'[j]
    ensures SumTo(l, n) == SumTo(l', n)
  {
    if n > 0 { SumToSame(l, l', n - 1); }
  }

  /** The first n entries that are kept are the longest run of them within room, or none. */
  lemma KeepLenIsLongest<V>(l: seq<Entry<V>>, n: nat, room: int)
    requires n <= |l|
    ensures var m := KeepLen(l, n, room);
            && (m == 0 || SumTo(l, m) <= room)
            && (m < n ==> SumTo(l, m + 1) > room)
  {
  }

  lemma KeepLenIs<V>(l: seq<Entry<V>>, n: nat, room: int, m: nat)
    requires m <= n <= |l|
    requires m == 0 || SumTo(l, m) <= room
    requires m == n || SumTo(l, m + 1) > room
    ensures KeepLen(l, n, room) == m
  {
    KeepLenIsLongest(l, n, room);
    var k := KeepLen(l, n, room);
    if k > m { SumToMonotone(l, m + 1, k); }
    if k < m { SumToMonotone(l, k + 1, m); }
  }

  lemma FitLenIsLongest<V>(l: seq<Entry<V>>, capacity: int)
    ensures var p := FitLen(l, capacity);
            && (l != [] ==> p >= 1)
            && (p <= 1 || SumTo(l, p) <= capacity)
            && (p < |l| ==> SumTo(l, p + 1) > capacity)
  {
    KeepLenIsLongest(l, |l|, capacity);
    var m := KeepLen(l, |l|, capacity);
    if m == 0 && |l| > 1 { SumToMonotone(l, 1, 2); }
  }

  lemma FitLenIs<V>(l: seq<Entry<V>>, capacity: int, p: nat)
    requires 1 <= p <= |l|
    requires p == 1 || SumTo(l, p) <= capacity
    requires p == |l| || SumTo(l, p + 1) > capacity
    ensures FitLen(l, capacity) == p
  {
    if p == 1 && SumTo(l, 1) > capacity {
      KeepLenIs(l, |l|, capacity, 0);
    } else {
      KeepLenIs(l, |l|, capacity, p);
    }
  }

  lemma FindIs<V>(l: seq<Entry<V>>, k: ChunkKey, i: nat)
    requires i <= |l| && (i < |l| ==> l[i].key == k)
    requires forall j | 0 <= j < i :: l[j].key != k
    ensures Find(l, k) == i
  {
  }

  lemma FindPrefix<V>(l: seq<Entry<V>>, k: ChunkKey, p: nat)
    requires p <= |l|
    ensures Find(l[..p], k) == Min(Find(l, k), p)
  {
    FindIs(l[..p], k, Min(Find(l, k), p));
  }

  /** Touching an entry shifts what was in front of it and nothing behind it. */
  lemma TouchSum<V>(l: seq<Entry<V>>, e: Entry<V>, n: nat)
    requires 1 <= n <= |Touch(l, e)|
    ensures var i := Find(l, e.key);
            SumTo(Touch(l, e), n) ==
            e.size + if n - 1 <= i then SumTo(l, n - 1) else SumTo(l, n) - l[i].size
  {
    var i := Find(l, e.key);
    if n == 1 {
      assert SumTo(Touch(l, e), 1) == SumTo(Touch(l, e), 0) + e.size;
    } else {
      TouchSum(l, e, n - 1);
      if n - 1 <= i {
        assert Touch(l, e)[n - 1] == l[n - 2];
      } else {
        assert Touch(l, e)[n - 1] == l[n - 1];
      }
    }
  }

  // ---------------------------------------------------------------- one operation, position by position

  /** The entries of other keys, in their order. */
  function Others<V>(l: seq<Entry<V>>, k: ChunkKey): seq<Entry<V>> {
    if l == [] then []
    else
      var n := |l| - 1;
      if l[n].key == k then Others(l[..n], k) else Others(l[..n], k) + [l[n]]
  }

  lemma {:induction false} AllOthers<V>(l: seq<Entry<V>>, k: ChunkKey)
    requires forall e | e in l :: e.key != k
    ensures Others(l, k) == l
  {
    if l != [] {
      assert l[..|l| - 1] + [l[|l| - 1]] == l;
      AllOthers(l[..|l| - 1], k);
    }
  }

  lemma {:induction false} OthersConcat<V>(a: seq<Entry<V>>, b: seq<Entry<V>>, k: ChunkKey)
    ensures Others(a + b, k) == Others(a, k) + Others(b, k)
    decreases |b|
  {
    if b == [] {
      assert a + b == a;
    } else {
      var n := |b| - 1;
      assert (a + b)[..|a + b| - 1] == a + b[..n] && (a + b)[|a + b| - 1] == b[n];
      OthersConcat(a, b[..n], k);
    }
  }

  lemma WithoutIsOthers<V>(l: seq<Entry<V>>, k: ChunkKey)
    requires Distinct(l)
    ensures Without(l, k) == Others(l, k)
  {
    var i := Find(l, k);
    if i < |l| {
      assert l == l[..i] + ([l[i]] + l[i + 1..]);
      OthersConcat(l[..i], [l[i]] + l[i + 1..], k);
      OthersConcat([l[i]], l[i + 1..], k);
      assert [l[i]][..0] == [];
      AllOthers(l[..i], k);
      AllOthers(l[i + 1..], k);
    } else {
      AllOthers(l, k);
    }
  }

  lemma {:induction false} FromTailAt<V>(l: seq<Entry<V>>, m: nat, i: nat)
    requires m <= |l| && i < |l| - m
    ensures FromTail(l, m)[i] == l[|l| - 1 - i]
    decreases |l| - m
  {
    if i < |l| - m - 1 { FromTailAt(l, m + 1, i); }
  }

  /** A Get of an entry x of the list puts it in front of the others, whose order stays. */
  lemma GetIs<V>(l: seq<Entry<V>>, x: Entry<V>)
    requires Distinct(l) && x in l
    ensures AfterGet(l, x.key) == [x] + Others(l, x.key)
  {
    WithoutIsOthers(l, x.key);
    var i := Find(l, x.key);
    var j :| 0 <= j < |l| && l[j] == x;
    assert i == j;
  }

  /** A Put of a key that is there puts the new entry in front of the others, whose order
      stays, and evicts nothing, even if they do not fit together. */
  lemma OverwriteIs<V>(l: seq<Entry<V>>, capacity: int, e: Entry<V>)
    requires Distinct(l) && exists x | x in l :: x.key == e.key
    ensures AfterPut(l, capacity, e) == [e] + Others(l, e.key) && Victims(l, capacity, e) == []
  {
    WithoutIsOthers(l, e.key);
  }

  /** A Put of another key puts it in front of the first m entries, as many as fit beside it,
      and hands over the rest, last one first. */
  lemma InsertIs<V>(l: seq<Entry<V>>, capacity: int, e: Entry<V>) returns (m: nat)
    requires forall x | x in l :: x.key != e.key
    ensures m <= |l| && AfterPut(l, capacity, e) == [e] + l[..m]
    ensures (m == 0 || SumTo(l, m) + e.size <= capacity) && (m < |l| ==> SumTo(l, m + 1) + e.size > capacity)
    ensures |Victims(l, capacity, e)| == |l| - m
    ensures forall i | 0 <= i < |l| - m :: Victims(l, capacity, e)[i] == l[|l| - 1 - i]
  {
    m := KeepLen(l, |l|, capacity - e.size);
    KeepLenIsLongest(l, |l|, capacity - e.size);
    forall i | 0 <= i < |l| - m ensures FromTail(l, m)[i] == l[|l| - 1 - i] { FromTailAt(l, m, i); }
  }

  // ---------------------------------------------------------------- the closed form

  lemma TouchedPrefix<V>(l: seq<Entry<V>>, e: Entry<V>, p: nat)
    requires Find(l, e.key) < p <= |l|
    ensures |Touch(l, e)| == |l| && Touch(l, e)[..p] == Touch(l[..p], e)
  {
    FindPrefix(l, e.key, p);
    var i := Find(l, e.key);
    assert l[..p][..i] == l[..i];
    assert l[..p][i + 1..] == l[i + 1..p];
    assert Without(l, e.key) == l[..i] + l[i + 1..];
  }

  /** Using an entry that is resident only rotates it to the front of the fitting prefix. */
  lemma FitAfterHit<V>(l: seq<Entry<V>>, capacity: int, e: Entry<V>)
    requires Has(Fit(l, capacity), e.key)
    requires Has(l, e.key) ==> l[Find(l, e.key)] == e
    ensures Fit(Touch(l, e), capacity) == AfterGet(Fit(l, capacity), e.key)
  {
    var p := FitLen(l, capacity);
    var i := Find(l, e.key);
    FindPrefix(l, e.key, p);
    FitLenIsLongest(l, capacity);
    TouchedPrefix(l, e, p);
    TouchSum(l, e, p);
    if p < |l| { TouchSum(l, e, p + 1); }
    assert SumTo(l, i + 1) == SumTo(l, i) + l[i].size;
    FitLenIs(Touch(l, e), capacity, p);
  }

  lemma MissLength<V>(l: seq<Entry<V>>, capacity: int, e: Entry<V>, p: nat)
    requires p == FitLen(l, capacity) && p <= Find(l, e.key)
    requires Has(l, e.key) ==> l[Find(l, e.key)] == e
    ensures FitLen(Touch(l, e), capacity) == KeepLen(l, p, capacity - e.size) + 1
  {
    var room := capacity - e.size;
    var q := KeepLen(l, p, room);
    FitLenIsLongest(l, capacity);
    KeepLenIsLongest(l, p, room);
    TouchSum(l, e, q + 1);
    if q + 1 < |Touch(l, e)| {
      TouchSum(l, e, q + 2);
      if p < |l| { assert SumTo(l, p + 1) == SumTo(l, p) + l[p].size; }
    }
    FitLenIs(Touch(l, e), capacity, q + 1);
  }

  lemma KeepLenSame<V>(l: seq<Entry<V>>, l': seq<Entry<V>>, n: nat, room: int)
    requires n <= |l| && n <= |l'| && forall j | 0 <= j < n :: l[j] == l'[j]
    ensures KeepLen(l, n, room) == KeepLen(l', n, room)
  {
    SumToSame(l, l', n);
  }

  /** A miss evicts from the fitting prefix exactly what no longer fits behind the newcomer. */
  lemma FitAfterMiss<V>(l: seq<Entry<V>>, capacity: int, e: Entry<V>)
    requires !Has(Fit(l, capacity), e.key)
    requires Has(l, e.key) ==> l[Find(l, e.key)] == e
    ensures Fit(Touch(l, e), capacity) == [e] + Keep(Fit(l, capacity), capacity - e.size)
  {
    var p := FitLen(l, capacity);
    FindPrefix(l, e.key, p);
    MissLength(l, capacity, e, p);
    KeepLenSame(l, l[..p], p, capacity - e.size);
  }

  /** One access commutes with cutting the recency list down to what fits. */
  lemma AccessOfFit<V>(l: seq<Entry<V>>, capacity: int, e: Entry<V>)
    requires Has(l, e.key) ==> l[Find(l, e.key)] == e
    ensures Access(Fit(l, capacity), capacity, e) == Fit(Touch(l, e), capacity)
  {
    if Has(Fit(l, capacity), e.key) {
      FindPrefix(l, e.key, FitLen(l, capacity));
      FitAfterHit(l, capacity, e);
    } else {
      FitAfterMiss(l, capacity, e);
    }
  }

  lemma TouchHolds<V>(l: seq<Entry<V>>, e: Entry<V>)
    requires Distinct(l)
    ensures Distinct(Touch(l, e))
    ensures forall x | x in Touch(l, e) :: x == e || x in l
    ensures forall x | x in l && x.key != e.key :: x in Touch(l, e)
  {
    var w := Without(l, e.key);
    assert forall x | x in l && x.key != e.key :: x in w;
    assert forall x | x in w :: x in l && x.key != e.key;
    assert Distinct(w);
  }

  lemma HasIffKey<V>(l: seq<Entry<V>>, k: ChunkKey)
    ensures Has(l, k) <==> exists e | e in l :: e.key == k
    ensures Has(l, k) ==> l[Find(l, k)] in l
  {
  }

  /** The recency list has no duplicates and the entries of the trace, key by key. */
  lemma {:induction false} RecencyHolds<V>(trace: seq<Entry<V>>)
    ensures Distinct(Recency(trace))
    ensures forall e | e in Recency(trace) :: e in trace
    ensures forall e | e in trace :: Has(Recency(trace), e.key)
  {
    if trace != [] {
      var t, last := trace[..|trace| - 1], trace[|trace| - 1];
      RecencyHolds(t);
      TouchHolds(Recency(t), last);
      forall e | e in trace ensures Has(Recency(trace), e.key) {
        HasIffKey(Recency(t), e.key);
        HasIffKey(Recency(trace), e.key);
        if e.key != last.key { assert e in t; } else { assert last in Recency(trace); }
      }
    }
  }

  lemma ConsistentPart<V>(trace: seq<Entry<V>>, part: seq<Entry<V>>)
    requires Consistent(trace) && forall e | e in part :: e in trace
    ensures Consistent(part)
  {
  }

  /** The recency list's entry of a key that is used again is that use's entry. */
  lemma SameEntry<V>(t: seq<Entry<V>>, e: Entry<V>)
    requires Consistent(t + [e])
    ensures Consistent(t)
    ensures Has(Recency(t), e.key) ==> Recency(t)[Find(Recency(t), e.key)] == e
  {
    ConsistentPart(t + [e], t);
    RecencyHolds(t);
    HasIffKey(Recency(t), e.key);
    assert e in t + [e];
  }

  lemma Snoc<V>(capacity: int, t: seq<Entry<V>>, e: Entry<V>)
    ensures After(capacity, t + [e]) == Access(After(capacity, t), capacity, e)
    ensures Recency(t + [e]) == Touch(Recency(t), e)
  {
    var trace := t + [e];
    assert trace[..|trace| - 1] == t && trace[|trace| - 1] == e;
  }

  /** After any trace, for any capacity and any sizes, the shard holds exactly the longest
      recency prefix that fits. */
  lemma {:induction false} ClosedForm<V>(capacity: int, trace: seq<Entry<V>>)
    requires Consistent(trace)
    ensures After(capacity, trace) == Fit(Recency(trace), capacity)
  {
    if trace != [] {
      var t, e := trace[..|trace| - 1], trace[|trace| - 1];
      assert t + [e] == trace;
      SameEntry(t, e);
      ClosedForm(capacity, t);
      Snoc(capacity, t, e);
      AccessOfFit(Recency(t), capacity, e);
    }
  }

  // ---------------------------------------------------------------- consequences

  lemma FitGrows<V>(l: seq<Entry<V>>, small: int, large: int)
    requires small <= large
    ensures Fit(l, small) <= Fit(l, large)
  {
    FitLenIsLongest(l, small);
    FitLenIsLongest(l, large);
    var p, p' := FitLen(l, small), FitLen(l, large);
    if p' < p { SumToMonotone(l, p' + 1, p); }
    assert l[..p'][..p] == l[..p];
  }

  /** No Belady anomaly: a smaller shard's contents are a prefix of a larger one's. */
  lemma Inclusion<V>(small: int, large: int, trace: seq<Entry<V>>)
    requires Consistent(trace) && small <= large
    ensures After(small, trace) <= After(large, trace)
  {
    ClosedForm(small, trace);
    ClosedForm(large, trace);
    FitGrows(Recency(trace), small, large);
  }

  /** Within its capacity, or one oversized entry alone. */
  lemma ShardBound<V>(capacity: int, trace: seq<Entry<V>>)
    requires Consistent(trace)
    ensures Sum(After(capacity, trace)) <= capacity || |After(capacity, trace)| <= 1
  {
    var l := Recency(trace);
    ClosedForm(capacity, trace);
    FitLenIsLongest(l, capacity);
    SumToSame(Fit(l, capacity), l, FitLen(l, capacity));
  }

  lemma HoldsOnlyTraced<V>(capacity: int, trace: seq<Entry<V>>)
    requires Consistent(trace)
    ensures forall e | e in After(capacity, trace) :: e in trace
  {
    ClosedForm(capacity, trace);
    RecencyHolds(trace);
    assert forall e | e in Fit(Recency(trace), capacity) :: e in Recency(trace);
  }

  lemma SumAtMost<V>(l: seq<Entry<V>>, capacity: int, bound: nat)
    requires Sum(l) <= capacity || |l| <= 1
    requires forall e | e in l :: e.size <= bound
    ensures Sum(l) <= Max(capacity, bound)
  {
    if |l| == 1 {
      assert l[0] in l;
      assert SumTo(l, 1) == SumTo(l, 0) + l[0].size;
    }
  }

  // ---------------------------------------------------------------- the byte counter

  lemma {:induction false} SumHeadTo<V>(e: Entry<V>, l: seq<Entry<V>>, n: nat)
    requires n <= |l|
    ensures SumTo([e] + l, n + 1) == e.size + SumTo(l, n)
  {
    if n > 0 { SumHeadTo(e, l, n - 1); } else { assert SumTo([e] + l, 1) == SumTo([e] + l, 0) + e.size; }
  }

  lemma SumAfterPut<V>(l: seq<Entry<V>>, capacity: int, e: Entry<V>)
    ensures Sum(AfterPut(l, capacity, e)) ==
            if Has(l, e.key) then Sum(l) - l[Find(l, e.key)].size + e.size
            else e.size + SumTo(l, KeepLen(l, |l|, capacity - e.size))
  {
    if Has(l, e.key) {
      TouchSum(l, e, |Touch(l, e)|);
    } else {
      var m := KeepLen(l, |l|, capacity - e.size);
      SumHeadTo(e, l[..m], m);
      SumToSame(l, l[..m], m);
    }
  }

  /** Exactly when a shard is within its capacity: after any demand trace, its byte counter
      exceeds the capacity if and only if the entry used last is by itself too large. */
  lemma FitsIff<V>(capacity: int, trace: seq<Entry<V>>)
    requires Consistent(trace)
    ensures Sum(After(capacity, trace)) <= capacity <==>
            (if trace == [] then 0 else trace[|trace| - 1].size) <= capacity
  {
    if trace != [] {
      var l := Recency(trace);
      ClosedForm(capacity, trace);
      FitLenIsLongest(l, capacity);
      SumToSame(Fit(l, capacity), l, FitLen(l, capacity));
      SumToMonotone(l, 1, FitLen(l, capacity));
      assert SumTo(l, 1) == SumTo(l, 0) + l[0].size;
      assert l[0] == trace[|trace| - 1];
    }
  }

  // ---------------------------------------------------------------- residency

  ghost predicate Mentions<V>(trace: seq<Entry<V>>, k: ChunkKey) {
    exists e | e in trace :: e.key == k
  }

  /** The bytes of the distinct keys of a trace, each counted at its first occurrence. */
  ghost function DistinctBytes<V>(trace: seq<Entry<V>>): nat {
    if trace == [] then 0
    else
      var t, e := trace[..|trace| - 1], trace[|trace| - 1];
      DistinctBytes(t) + if Mentions(t, e.key) then 0 else e.size
  }

  lemma RecencyMentions<V>(trace: seq<Entry<V>>, k: ChunkKey)
    ensures Has(Recency(trace), k) <==> Mentions(trace, k)
  {
    RecencyHolds(trace);
    HasIffKey(Recency(trace), k);
  }

  lemma TouchBytes<V>(l: seq<Entry<V>>, e: Entry<V>)
    requires Has(l, e.key) ==> l[Find(l, e.key)] == e
    ensures Sum(Touch(l, e)) == Sum(l) + if Has(l, e.key) then 0 else e.size
  {
    TouchSum(l, e, |Touch(l, e)|);
  }

  lemma {:induction false} RecencyBytes<V>(trace: seq<Entry<V>>)
    requires Consistent(trace)
    ensures Sum(Recency(trace)) == DistinctBytes(trace)
  {
    if trace != [] {
      var t, e := trace[..|trace| - 1], trace[|trace| - 1];
      assert t + [e] == trace;
      SameEntry(t, e);
      RecencyBytes(t);
      RecencyMentions(t, e.key);
      Snoc(0, t, e);
      TouchBytes(Recency(t), e);
    }
  }

  /** Touching an entry leaves what comes behind a given position that no longer holds it. */
  lemma TouchAhead<V>(l: seq<Entry<V>>, r: seq<Entry<V>>, e: Entry<V>, x: Entry<V>)
    requires r + [e] <= l && x.key != e.key
    ensures Touch(r, x) + [e] <= Touch(l, x)
  {
    var d := |r|;
    var i := Find(l, x.key);
    assert l[..d] == r && l[d] == e;
    FindPrefix(l, x.key, d);
    if i < d {
      assert l[i + 1..] == r[i + 1..] + [e] + l[d + 1..];
    } else {
      assert Without(l, x.key)[..d + 1] == l[..d + 1] == r + [e];
    }
  }

  lemma SnocLast<V>(before: seq<Entry<V>>, t: seq<Entry<V>>, x: Entry<V>)
    ensures Recency(before + (t + [x])) == Touch(Recency(before + t), x)
  {
    assert before + (t + [x]) == (before + t) + [x];
    Snoc(0, before + t, x);
  }

  /** The recency list of a trace that ends with uses of other keys than e: those keys, then e. */
  lemma {:induction false} RecencyAfterUse<V>(before: seq<Entry<V>>, e: Entry<V>, later: seq<Entry<V>>)
    requires forall x | x in later :: x.key != e.key
    ensures Recency(later) + [e] <= Recency(before + [e] + later)
  {
    if later == [] {
      assert before + [e] + later == before + [e];
      Snoc(0, before, e);
    } else {
      var t, x := later[..|later| - 1], later[|later| - 1];
      assert t + [x] == later && x in later;
      RecencyAfterUse(before, e, t);
      Snoc(0, t, x);
      SnocLast(before + [e], t, x);
      TouchAhead(Recency(before + [e] + t), Recency(t), e, x);
    }
  }

  /** A position of the list survives iff it is the first or its prefix fits. */
  lemma FitHolds<V>(l: seq<Entry<V>>, capacity: int, r: seq<Entry<V>>, e: Entry<V>)
    requires Distinct(l) && r + [e] <= l
    ensures Has(Fit(l, capacity), e.key) <==> r == [] || e.size + Sum(r) <= capacity
  {
    var d, p := |r|, FitLen(l, capacity);
    assert l[d] == e && (r + [e])[..d] == r;
    FindIs(l, e.key, d);
    FindPrefix(l, e.key, p);
    SumToSame(l, r, d);
    assert SumTo(l, d + 1) == Sum(r) + e.size;
    FitLenIsLongest(l, capacity);
    if d < p { SumToMonotone(l, d + 1, p); } else { SumToMonotone(l, p + 1, d + 1); }
  }

  /** Exactly when a chunk stays hot: after its last use, either nothing else touched the
      shard, or it and all the distinct chunks touched since fit together. */
  lemma Residency<V>(capacity: int, before: seq<Entry<V>>, e: Entry<V>, later: seq<Entry<V>>)
    requires Consistent(before + [e] + later)
    requires forall x | x in later :: x.key != e.key
    ensures Has(After(capacity, before + [e] + later), e.key)
            <==> later == [] || e.size + DistinctBytes(later) <= capacity
  {
    var trace := before + [e] + later;
    ClosedForm(capacity, trace);
    ConsistentPart(trace, later);
    RecencyBytes(later);
    RecencyAfterUse(before, e, later);
    RecencyHolds(trace);
    RecencyHolds(later);
    if later != [] { assert later[0] in later; }
    FitHolds(Recency(trace), capacity, Recency(later), e);
  }
}
