/** What the invariant of the proxy means for its clients, over every run. */
module SystemTheorems {
  import opened Basics
  import opened Decimal
  import opened HotSpec
  import opened Fnv
  import opened RangeHeader
  import opened System
  import opened SystemSafety
  import SF = SingleFlight
  import Safe = SingleFlightSafety
  import Env = SingleFlightEnv
  import End = SingleFlightTermination

  /** A start: nothing in memory, a disk that holds nothing or chunks from earlier. */
  ghost predicate Initial(s: State) {
    && s.sf.mem == map[] && s.sf.inflight == map[] && s.sf.flights == map[] && s.sf.calls == map[]
    && (forall k | k in s.sf.objects :: |s.sf.objects[k]| <= MAX_INT64)
    && s.pool == {} && s.hot == Empty() && s.pending == [] && s.tasks == map[] && s.fetched == {}
    && (forall k | k in s.cold :: HasChunk(s.sf.objects, k) && s.cold[k] == Chunk(s.sf.objects, k))
  }

  lemma InitialHasInv(s: State)
    requires Initial(s)
    ensures Inv(s)
  {
  }

  ghost predicate CanRun(s: State, actions: seq<Action>)
    requires Inv(s)
    decreases |actions|
  {
    actions != [] ==>
      && Enabled(s, actions[0])
      && (StepKeepsInv(s, actions[0]); CanRun(Step(s, actions[0]), actions[1..]))
  }

  ghost function Run(s: State, actions: seq<Action>): (t: State)
    requires Inv(s) && CanRun(s, actions)
    ensures Inv(t)
    decreases |actions|
  {
    if actions == [] then s
    else
      StepKeepsInv(s, actions[0]);
      Run(Step(s, actions[0]), actions[1..])
  }

  // ---------------------------------------------------------------- requests do not change

  /** The handler still serves the range its header asked for. */
  predicate AskedFor(objects: Store, task: Task) {
    task.Handler? ==>
      task.key in objects && ResolveByteRange(task.header, |objects[task.key]|) == Some((task.start, task.end))
  }

  ghost predicate AllAsked(s: State) {
    forall t | t in s.tasks :: AskedFor(s.sf.objects, s.tasks[t])
  }

  predicate SameRequest(a: Task, b: Task) {
    && a.Handler? == b.Handler?
    && (a.Handler? ==>
          a.header == b.header && a.key == b.key && a.start == b.start && a.end == b.end && a.chunks <= b.chunks)
    && (a.Worker? ==> a.job == b.job)
  }

  lemma WrittenSame(sf: SF.State, task: Task)
    requires task.Handler? && task.phase.Writing? && HandlerOk(sf, task)
    ensures SameRequest(task, Written(sf, task))
  {
  }

  /** No task disappears, and none changes its request or loses a chunk. */
  ghost predicate RequestsKept(s: State, u: State) {
    && u.tasks.Keys == s.tasks.Keys && u.sf.objects == s.sf.objects
    && forall t | t in s.tasks :: SameRequest(s.tasks[t], u.tasks[t])
  }

  lemma OneTaskKept(s: State, u: State, t: TaskId)
    requires t in s.tasks && t in u.tasks && u.tasks == s.tasks[t := u.tasks[t]] && u.sf.objects == s.sf.objects
    requires SameRequest(s.tasks[t], u.tasks[t])
    ensures RequestsKept(s, u)
  {
  }

  lemma ReturnSame(s: State, t: TaskId, a: Addr)
    requires Inv(s) && Enabled(s, Return(t, a))
    ensures RequestsKept(s, DoReturn(s, t, a))
  {
    ReturnTurns(s, t, a);
    OneTaskKept(s, DoReturn(s, t, a), t);
  }

  lemma StoreSame(s: State, t: TaskId)
    requires Inv(s) && Enabled(s, Store(t))
    ensures RequestsKept(s, DoStore(s, t))
  {
    assert TaskOk(s, t);
    OneTaskKept(s, DoStore(s, t), t);
  }

  lemma LookSame(s: State, t: TaskId)
    requires Inv(s) && Enabled(s, Look(t))
    ensures RequestsKept(s, DoLook(s, t))
  {
    assert TaskOk(s, t);
    OneTaskKept(s, DoLook(s, t), t);
  }

  lemma ReadColdSame(s: State, t: TaskId, a: Addr)
    requires Inv(s) && Enabled(s, ReadCold(t, a))
    ensures RequestsKept(s, DoReadCold(s, t, a))
  {
    assert TaskOk(s, t);
    OneTaskKept(s, DoReadCold(s, t, a), t);
  }

  lemma AcquireSame(s: State, t: TaskId, buf: Addr)
    requires Inv(s) && Enabled(s, Acquire(t, buf))
    ensures RequestsKept(s, DoAcquire(s, t, buf))
  {
    assert TaskOk(s, t);
    if buf in s.pool { assert PoolOk(s, buf); }
    OneTaskKept(s, DoAcquire(s, t, buf), t);
  }

  lemma WriteSame(s: State, t: TaskId)
    requires Inv(s) && Enabled(s, Write(t))
    ensures RequestsKept(s, Step(s, Write(t)))
  {
    assert TaskOk(s, t);
    WrittenSame(s.sf, s.tasks[t]);
    OneTaskKept(s, Step(s, Write(t)), t);
  }

  lemma DisconnectSame(s: State, t: TaskId, n: nat)
    requires Inv(s) && Enabled(s, Disconnect(t, n))
    ensures RequestsKept(s, Step(s, Disconnect(t, n)))
  {
    assert TaskOk(s, t);
    OneTaskKept(s, Step(s, Disconnect(t, n)), t);
  }

  lemma ReadFailsSame(s: State, t: TaskId)
    requires Inv(s) && Enabled(s, ReadFails(t))
    ensures RequestsKept(s, Step(s, ReadFails(t)))
  {
    OneTaskKept(s, Step(s, ReadFails(t)), t);
  }

  lemma ProtocolSame(s: State, step: SF.Action)
    requires Inv(s) && Enabled(s, Protocol(step))
    ensures RequestsKept(s, Step(s, Protocol(step)))
  {
    Env.StepKeeps(s.sf, step);
  }

  lemma ColdSame(s: State, a: Action)
    requires Inv(s) && Enabled(s, a) && (a.ColdWrite? || a.ColdFail?)
    ensures RequestsKept(s, Step(s, a))
  {
  }

  lemma StepKeepsRequests(s: State, a: Action)
    requires Inv(s) && Enabled(s, a) && !a.Request? && !a.Job?
    ensures RequestsKept(s, Step(s, a))
  {
    match a
    case Look(t) => LookSame(s, t);
    case ReadCold(t, addr) => ReadColdSame(s, t, addr);
    case ReadFails(t) => ReadFailsSame(s, t);
    case Acquire(t, buf) => AcquireSame(s, t, buf);
    case Protocol(step) => ProtocolSame(s, step);
    case Return(t, addr) => ReturnSame(s, t, addr);
    case Store(t) => StoreSame(s, t);
    case ColdWrite(i) => ColdSame(s, a);
    case ColdFail(i) => ColdSame(s, a);
    case Write(t) => WriteSame(s, t);
    case Disconnect(t, n) => DisconnectSame(s, t, n);
  }

  lemma StepKeepsAsked(s: State, a: Action)
    requires Inv(s) && Enabled(s, a) && AllAsked(s)
    ensures AllAsked(Step(s, a)) && Step(s, a).sf.objects == s.sf.objects
  {
    if !a.Request? && !a.Job? {
      StepKeepsRequests(s, a);
      forall t | t in s.tasks ensures AskedFor(s.sf.objects, Step(s, a).tasks[t]) {
        assert AskedFor(s.sf.objects, s.tasks[t]);
      }
    } else if a.Request? {
      ResolvedIsInside(a.header, |s.sf.objects[a.key]|);
    }
  }

  lemma {:induction false} RunKeepsAsked(s: State, actions: seq<Action>)
    requires Inv(s) && CanRun(s, actions) && AllAsked(s)
    ensures AllAsked(Run(s, actions)) && Run(s, actions).sf.objects == s.sf.objects
    decreases |actions|
  {
    if actions != [] {
      StepKeepsInv(s, actions[0]);
      StepKeepsAsked(s, actions[0]);
      RunKeepsAsked(Step(s, actions[0]), actions[1..]);
    }
  }

  // ---------------------------------------------------------------- theorems

  /** End to end: in every interleaving of handlers, prefetch workers, fetches, evictions and
      disk writes, whatever a client has received of a response is the beginning of the range
      its header asked for, and a completed body is exactly that range. */
  lemma EveryResponseIsTheRange(s: State, actions: seq<Action>, t: TaskId)
    requires Initial(s) && Inv(s) && CanRun(s, actions)
    requires t in Run(s, actions).tasks && Run(s, actions).tasks[t].Handler?
    ensures var task := Run(s, actions).tasks[t];
            && task.key in s.sf.objects
            && var content := s.sf.objects[task.key];
               && ResolveByteRange(task.header, |content|) == Some((task.start, task.end))
               && task.start <= task.end < |content|
               && task.body <= content[task.start..task.end + 1]
               && (task.phase.Finished? ==> task.body == content[task.start..task.end + 1])
  {
    RunKeepsAsked(s, actions);
    var u := Run(s, actions);
    assert TaskOk(u, t) && AskedFor(u.sf.objects, u.tasks[t]);
    BodyIsPrefix(u.sf, u.tasks[t]);
  }

  lemma BodyIsPrefix(sf: SF.State, task: Task)
    requires task.Handler? && HandlerOk(sf, task)
    ensures task.body <= sf.objects[task.key][task.start..task.end + 1]
  {
    if task.phase.Writing? { AbortOk(sf, task); }
  }

  /** ... so a completed response to a digit-only header that fits 64 bits carries exactly the
      positions that section 14.1.2 of RFC 9110 selects. */
  lemma EveryResponseIsWhatTheStandardSelects(s: State, actions: seq<Action>, t: TaskId, a: string, b: string)
    requires Initial(s) && Inv(s) && CanRun(s, actions)
    requires t in Run(s, actions).tasks
    requires AllDigits(a) && AllDigits(b) && a + b != "" && Fits(a, b)
    requires var task := Run(s, actions).tasks[t];
             task.Handler? && task.phase.Finished? && task.header == "bytes=" + a + "-" + b
    ensures var task := Run(s, actions).tasks[t];
            && task.key in s.sf.objects
            && var content := s.sf.objects[task.key];
               && (forall i :: task.start <= i <= task.end <==> Selects(Meaning(a, b), |content|, i))
               && |task.body| == task.end - task.start + 1
               && forall i | task.start <= i <= task.end :: i < |content| && task.body[i - task.start] == content[i]
  {
    EveryResponseIsTheRange(s, actions, t);
    var task := Run(s, actions).tasks[t];
    var content := s.sf.objects[task.key];
    assert Inv(s) && |content| <= MAX_INT64;
    AgreesIff(a, b, |content|);
  }

  /** No byte array that a client, the hot cache, a pending write or a finished fetch can read
      is a buffer that is pooled, being fetched into, or about to be given back. */
  lemma BuffersAreSeparate(s: State, buf: Addr)
    requires Inv(s) && (buf in s.pool || exists t :: Holding(s, t, buf))
    ensures forall i, e | 0 <= i < NUM_SHARDS && e in s.hot[i] :: e.val != buf
    ensures forall e | e in s.pending :: e.val != buf
    ensures forall f | f in s.sf.flights :: s.sf.flights[f].data != Some(buf)
    ensures forall t | t in s.tasks && s.tasks[t].Handler? :: buf !in s.tasks[t].chunks
  {
    assert buf in s.sf.mem && !s.sf.mem[buf].tag.Data? by {
      if buf in s.pool {
        assert PoolOk(s, buf);
      } else {
        var t :| Holding(s, t, buf);
        assert TaskOk(s, t);
      }
    }
    forall i, e | 0 <= i < NUM_SHARDS && e in s.hot[i] ensures e.val != buf { assert EntryOk(s.sf, e); }
    forall e | e in s.pending ensures e.val != buf { assert EntryOk(s.sf, e); }
    forall f | f in s.sf.flights ensures s.sf.flights[f].data != Some(buf) { assert SF.FlightOk(s.sf, f); }
    forall t | t in s.tasks && s.tasks[t].Handler? ensures buf !in s.tasks[t].chunks {
      assert TaskOk(s, t);
      var task := s.tasks[t];
      forall i | 0 <= i < |task.chunks| ensures task.chunks[i] != buf {
        assert IsChunk(s.sf, task.chunks[i], ChunkKey(task.key, ChunkOf(task.start) + i));
      }
    }
  }

  /** The array at a has the bytes of chunk k. */
  ghost predicate TrueBytes(s: State, a: Addr, k: ChunkKey) {
    a in s.sf.mem && HasChunk(s.sf.objects, k) && s.sf.mem[a].content == Chunk(s.sf.objects, k)
  }

  lemma LabelledIsTrue(s: State, a: Addr, k: ChunkKey)
    requires Inv(s) && IsChunk(s.sf, a, k)
    ensures TrueBytes(s, a, k)
  {
    assert SF.CellOk(s.sf, a);
  }

  /** ... and every one of those arrays, and every file, has the bytes of its chunk. */
  lemma EveryCopyIsTrue(s: State)
    requires Inv(s)
    ensures forall i, e | 0 <= i < NUM_SHARDS && e in s.hot[i] :: TrueBytes(s, e.val, e.key)
    ensures forall e | e in s.pending :: TrueBytes(s, e.val, e.key)
    ensures forall f | f in s.sf.flights && s.sf.flights[f].data.Some? ::
              TrueBytes(s, s.sf.flights[f].data.value, s.sf.flights[f].key)
    ensures forall k | k in s.cold :: HasChunk(s.sf.objects, k) && s.cold[k] == Chunk(s.sf.objects, k)
  {
    forall i, e | 0 <= i < NUM_SHARDS && e in s.hot[i] ensures TrueBytes(s, e.val, e.key) {
      assert EntryOk(s.sf, e);
      LabelledIsTrue(s, e.val, e.key);
    }
    forall e | e in s.pending ensures TrueBytes(s, e.val, e.key) {
      assert EntryOk(s.sf, e);
      LabelledIsTrue(s, e.val, e.key);
    }
    forall f | f in s.sf.flights && s.sf.flights[f].data.Some?
      ensures TrueBytes(s, s.sf.flights[f].data.value, s.sf.flights[f].key) {
      assert SF.FlightOk(s.sf, f);
      LabelledIsTrue(s, s.sf.flights[f].data.value, s.sf.flights[f].key);
    }
  }

  /** A buffer is in one place only: free in the pool, or lent to exactly one task. */
  lemma BuffersAreExclusive(s: State, buf: Addr, t: TaskId, u: TaskId)
    requires Inv(s) && Holding(s, t, buf)
    ensures buf !in s.pool && (Holding(s, u, buf) ==> t == u)
  {
    assert TaskOk(s, t);
    assert s.sf.mem[buf].tag == SF.Held(t);
    assert buf in s.pool ==> PoolOk(s, buf);
    if Holding(s, u, buf) { assert TaskOk(s, u); }
  }

  /** However many handlers and workers want a chunk, at most one backend GET for it is
      outstanding. */
  lemma AtMostOneGetOutstanding(s: State, t: TaskId, u: TaskId)
    requires Inv(s) && t in s.sf.calls && u in s.sf.calls
    requires s.sf.calls[t].phase.Leading? && s.sf.calls[u].phase.Leading? && s.sf.calls[t].key == s.sf.calls[u].key
    ensures t == u
  {
    Safe.InflightIffOneLeader(s.sf, s.sf.calls[t].key);
    assert SF.InWindow(s.sf.calls[t].phase) && SF.InWindow(s.sf.calls[u].phase);
  }

  predicate Unfinished(s: State, t: TaskId) {
    t in s.tasks && !s.tasks[t].phase.Finished? && !s.tasks[t].phase.Failed?
  }

  /** The action is a step of task t, of its fetch, or of the leader that its fetch waits for;
      and it is no cancellation, no client going away and no failing disk. */
  predicate Helps(s: State, t: TaskId, a: Action) {
    match a
    case Look(x) => x == t
    case ReadCold(x, _) => x == t
    case Acquire(x, _) => x == t
    case Return(x, _) => x == t
    case Store(x) => x == t
    case Write(x) => x == t
    case Protocol(step) =>
      && !step.Cancel? && !step.GiveUp?
      && (step.c == t
          || (t in s.sf.calls && s.sf.calls[t].phase.Waiting? && s.sf.calls[t].phase.f in s.sf.flights
              && s.sf.flights[s.sf.calls[t].phase.f].leader == step.c))
    case _ => false
  }

  /** What an unfinished task can do next; free is an address not in use, f a flight not in use. */
  function NextOf(s: State, t: TaskId, free: Addr, f: SF.FlightId): (a: Action)
    requires Inv(s) && Unfinished(s, t) && free !in s.sf.mem && f !in s.sf.flights
    ensures Enabled(s, a) && Helps(s, t, a)
  {
    assert TaskOk(s, t);
    match s.tasks[t].phase
    case Looking => Look(t)
    case ColdLooking => ReadCold(t, free)
    case NeedBuffer => Acquire(t, free)
    case Storing(_, _) => Store(t)
    case Writing(_) => Write(t)
    case Fetching(_) =>
      if s.sf.calls[t].phase.Returned? then Return(t, free) else Protocol(End.Next(s.sf, t, f, free))
  }

  /** No deadlock and nobody forgotten: each unfinished response or job can itself go on, or its
      fetch can, or the leader that the fetch waits for. */
  lemma NeverStuck(s: State, t: TaskId)
    requires Inv(s) && Unfinished(s, t)
    ensures exists a :: Enabled(s, a) && Helps(s, t, a)
  {
    End.FreshNat(s.sf.flights.Keys);
    End.FreshNat(s.sf.mem.Keys);
    var f: nat :| f !in s.sf.flights.Keys;
    var free: nat :| free !in s.sf.mem.Keys;
    var a := NextOf(s, t, free, f);
  }

  /** Over every run no worker reads the disk: its job goes from memory to the backend. */
  lemma WorkersSkipTheDisk(s: State, actions: seq<Action>, t: TaskId)
    requires Initial(s) && Inv(s) && CanRun(s, actions)
    requires t in Run(s, actions).tasks && Run(s, actions).tasks[t].Worker?
    ensures forall a :: !Enabled(Run(s, actions), ReadCold(t, a)) && !Enabled(Run(s, actions), ReadFails(t))
  {
    assert TaskOk(Run(s, actions), t);
  }

  /** Who caches what a fetch returned: a worker always, a handler only if it led the fetch.
      One that joined goes on with its own copy of the bytes, its buffer back in the pool, and
      touches no cache; so does one whose fetch failed, but for the copy. */
  lemma WhoCaches(s: State, t: TaskId, a: Addr)
    requires Inv(s) && Enabled(s, Return(t, a)) && s.tasks[t].phase.Fetching? && t in s.sf.calls
    ensures var (u, call, buf) := (Step(s, Return(t, a)), s.sf.calls[t].phase, s.tasks[t].phase.buf);
            && u.hot == s.hot && u.cold == s.cold && u.pending == s.pending && t in u.tasks
            && call.Returned?
            && (u.tasks[t].phase.Storing? <==> call.ok && (s.tasks[t].Worker? || !call.joined))
            && (u.tasks[t].phase.Failed? <==> !call.ok)
            && (if u.tasks[t].phase.Storing? then u.tasks[t].phase == Storing(a, Some(buf)) && u.pool == s.pool
                else u.pool == s.pool + {buf})
  {
    assert TaskOk(s, t);
  }
}
