/** No fetched chunk is lost: while background writes succeed, each chunk that a GET ever
    returned is in the hot cache, on the disk, in a pending write, or in the hands of a task
    that is about to put it into the hot cache. */
module SystemNoLoss {
  import opened Basics
  import opened HotSpec
  import opened LruSpec
  import opened Fnv
  import opened System
  import opened SystemSafety
  import opened SystemTheorems
  import SF = SingleFlight
  import Env = SingleFlightEnv

  /** The task got chunk k and will Put it: it led the fetch, or it is a worker, or it read
      the disk. A handler that joined a fetch leaves that to the leader. */
  predicate Carries(s: State, t: TaskId, k: ChunkKey) {
    && t in s.tasks
    && match s.tasks[t].phase
       case Fetching(_) => t in s.sf.calls && s.sf.calls[t].key == k
                           && Succeeded(s.sf.calls[t].phase, s.tasks[t].Worker?)
       case Storing(_, _) => WorksOn(s.tasks[t], k)
       case _ => false
  }

  /** The fetch has the bytes, and the caller is to cache them. */
  predicate Succeeded(p: SF.Phase, always: bool) {
    match p
    case Fetched(_, _, ok) => ok
    case Closing(_, _, ok) => ok
    case Returned(_, joined, ok) => ok && (always || !joined)
    case _ => false
  }

  ghost predicate Carried(s: State, k: ChunkKey) {
    exists t | t in s.tasks :: Carries(s, t, k)
  }

  ghost predicate AwaitsWrite(s: State, k: ChunkKey) {
    exists e | e in s.pending :: e.key == k
  }

  ghost predicate Covered(s: State, k: ChunkKey) {
    k in s.cold || Resident(s.hot, k) || AwaitsWrite(s, k) || Carried(s, k)
  }

  ghost predicate NothingLost(s: State) {
    forall k | k in s.fetched :: Covered(s, k)
  }

  // ---------------------------------------------------------------- what a step does to a chunk

  /** The caches only gain, and so do the carriers. */
  lemma CoveredFrame(s: State, u: State, k: ChunkKey)
    requires Covered(s, k)
    requires k in s.cold ==> k in u.cold
    requires Resident(s.hot, k) ==> Resident(u.hot, k)
    requires forall e | e in s.pending :: e in u.pending
    requires forall t | t in s.tasks && Carries(s, t, k) :: t in u.tasks && Carries(u, t, k)
    ensures Covered(u, k)
  {
    if exists e | e in s.pending :: e.key == k {
      var e :| e in s.pending && e.key == k;
      assert e in u.pending;
    }
    if exists t | t in s.tasks :: Carries(s, t, k) {
      var t :| t in s.tasks && Carries(s, t, k);
      assert t in u.tasks && Carries(u, t, k);
    }
  }

  /** Only task t and its call move. */
  lemma OneCarrierMoves(s: State, u: State, t: TaskId, k: ChunkKey)
    requires OthersSame(s, u, t)
    requires forall x | x in s.sf.calls && x != t :: x in u.sf.calls && u.sf.calls[x] == s.sf.calls[x]
    requires Carries(s, t, k) ==> t in u.tasks && Carries(u, t, k)
    ensures forall x | x in s.tasks && Carries(s, x, k) :: x in u.tasks && Carries(u, x, k)
  {
  }

  lemma GotKeeps(st: Shards<Addr>, k: ChunkKey, x: ChunkKey)
    requires Resident(st, x)
    ensures Resident(Got(st, k), x)
  {
    var l := ListOf(st, x);
    if ShardOf(k) == ShardOf(x) && Has(l, k) {
      var e := l[Find(l, k)];
      HasIffKey(l, x);
      ListMembers(l, 0, e);
      HasIffKey(AfterGet(l, k), x);
      if x == k { assert AfterGet(l, k)[0] in AfterGet(l, k); }
    }
  }

  lemma LookKeeps(s: State, t: TaskId, k: ChunkKey)
    requires Inv(s) && Enabled(s, Look(t)) && Covered(s, k)
    ensures Covered(DoLook(s, t), k)
  {
    assert TaskOk(s, t);
    if Resident(s.hot, k) { GotKeeps(s.hot, KeyOf(s.tasks[t]), k); }
    OneCarrierMoves(s, DoLook(s, t), t, k);
    CoveredFrame(s, DoLook(s, t), k);
  }

  lemma ReadColdKeeps(s: State, t: TaskId, a: Addr, k: ChunkKey)
    requires Inv(s) && Enabled(s, ReadCold(t, a)) && Covered(s, k)
    ensures Covered(DoReadCold(s, t, a), k)
  {
    assert TaskOk(s, t);
    OneCarrierMoves(s, DoReadCold(s, t, a), t, k);
    CoveredFrame(s, DoReadCold(s, t, a), k);
  }

  lemma AcquireKeeps(s: State, t: TaskId, buf: Addr, k: ChunkKey)
    requires Inv(s) && Enabled(s, Acquire(t, buf)) && Covered(s, k)
    ensures Covered(DoAcquire(s, t, buf), k)
  {
    assert TaskOk(s, t);
    if buf in s.pool { assert PoolOk(s, buf); }
    OneCarrierMoves(s, DoAcquire(s, t, buf), t, k);
    CoveredFrame(s, DoAcquire(s, t, buf), k);
  }

  /** Steps by tasks that hold nothing, or by new ones. */
  lemma IdleKeeps(s: State, a: Action, k: ChunkKey)
    requires Inv(s) && Enabled(s, a) && Covered(s, k)
    requires a.Request? || a.Job? || a.ReadFails? || a.Write? || a.Disconnect?
    ensures Covered(Step(s, a), k)
  {
    OneCarrierMoves(s, Step(s, a), a.t, k);
    CoveredFrame(s, Step(s, a), k);
  }

  lemma CallGoesOn(sf: SF.State, step: SF.Action, always: bool)
    requires SF.Inv(sf) && SF.Enabled(sf, step) && Succeeded(sf.calls[step.c].phase, always)
    ensures var sf' := SF.Step(sf, step);
            step.c in sf'.calls && Succeeded(sf'.calls[step.c].phase, always)
  {
  }

  lemma OtherCallsSame(sf: SF.State, step: SF.Action)
    requires SF.Inv(sf) && SF.Enabled(sf, step)
    ensures forall c | c in sf.calls && c != step.c ::
              c in SF.Step(sf, step).calls && SF.Step(sf, step).calls[c] == sf.calls[c]
  {
  }

  lemma CarrierGoesOn(s: State, step: SF.Action, k: ChunkKey)
    requires Inv(s) && Enabled(s, Protocol(step)) && Carries(s, step.c, k)
    ensures Carries(Step(s, Protocol(step)), step.c, k)
  {
    Env.StepKeeps(s.sf, step);
    CallGoesOn(s.sf, step, s.tasks[step.c].Worker?);
  }

  lemma OtherCarrier(s: State, step: SF.Action, t: TaskId, k: ChunkKey)
    requires Inv(s) && Enabled(s, Protocol(step)) && t != step.c && Carries(s, t, k)
    ensures Carries(Step(s, Protocol(step)), t, k)
  {
    OtherCallsSame(s.sf, step);
  }

  lemma ProtocolCarriers(s: State, step: SF.Action, k: ChunkKey)
    requires Inv(s) && Enabled(s, Protocol(step))
    ensures var u := Step(s, Protocol(step));
            forall t | t in s.tasks && Carries(s, t, k) :: t in u.tasks && Carries(u, t, k)
  {
    forall t | t in s.tasks && Carries(s, t, k) ensures Carries(Step(s, Protocol(step)), t, k) {
      if t == step.c { CarrierGoesOn(s, step, k); } else { OtherCarrier(s, step, t, k); }
    }
  }

  lemma ProtocolKeeps(s: State, step: SF.Action, k: ChunkKey)
    requires Inv(s) && Enabled(s, Protocol(step)) && Covered(s, k)
    ensures Covered(Step(s, Protocol(step)), k)
  {
    ProtocolCarriers(s, step, k);
    CoveredFrame(s, Step(s, Protocol(step)), k);
  }

  /** The fetched chunk is what the task is about to store. */
  lemma ReturnCarries(s: State, t: TaskId, a: Addr, k: ChunkKey)
    requires Inv(s) && Enabled(s, Return(t, a)) && Carries(s, t, k)
    ensures Carries(DoReturn(s, t, a), t, k)
  {
    assert TaskOk(s, t) && SF.CallOk(s.sf, t);
  }

  lemma ReturnKeeps(s: State, t: TaskId, a: Addr, k: ChunkKey)
    requires Inv(s) && Enabled(s, Return(t, a)) && Covered(s, k)
    ensures Covered(DoReturn(s, t, a), k)
  {
    if Carries(s, t, k) { ReturnCarries(s, t, a, k); }
    ReturnSame(s, t, a);
    ReturnMoves(s, t, a);
    OneCarrierMoves(s, DoReturn(s, t, a), t, k);
    CoveredFrame(s, DoReturn(s, t, a), k);
  }

  lemma ReturnMoves(s: State, t: TaskId, a: Addr)
    requires Inv(s) && Enabled(s, Return(t, a))
    ensures var u := DoReturn(s, t, a);
            && OthersSame(s, u, t) && u.hot == s.hot && u.cold == s.cold && u.pending == s.pending
            && forall x | x in s.sf.calls && x != t :: x in u.sf.calls && u.sf.calls[x] == s.sf.calls[x]
  {
    ReturnTurns(s, t, a);
  }

  /** Put keeps or hands over every other chunk. */
  lemma StoredKeeps(st: Shards<Addr>, capacity: int, e: Entry<Addr>, k: ChunkKey)
    requires Resident(st, k) || k == e.key
    ensures Resident(Stored(st, capacity, e), k) || exists x | x in Evicted(st, capacity, e) :: x.key == k
  {
    var l, c := ListOf(st, e.key), PerShard(capacity);
    ListMembers(l, c, e);
    PutMembers(l, c, e);
    HasIffKey(AfterPut(l, c, e), k);
    if k != e.key && ShardOf(k) == ShardOf(e.key) {
      HasIffKey(l, k);
      assert l[Find(l, k)] in AfterPut(l, c, e) || l[Find(l, k)] in Victims(l, c, e);
    }
  }

  lemma StoreMoves(s: State, t: TaskId)
    requires Inv(s) && Enabled(s, Store(t)) && TaskOk(s, t)
    ensures var u := DoStore(s, t);
            var data := s.tasks[t].phase.data;
            var e := Entry(KeyOf(s.tasks[t]), |s.sf.mem[data].content|, data);
            && OthersSame(s, u, t) && u.sf.calls == s.sf.calls && u.cold == s.cold
            && u.hot == Stored(s.hot, s.capacity, e) && u.pending == s.pending + Evicted(s.hot, s.capacity, e)
  {
  }

  lemma StoreKeeps(s: State, t: TaskId, k: ChunkKey)
    requires Inv(s) && Enabled(s, Store(t)) && Covered(s, k)
    ensures Covered(DoStore(s, t), k)
  {
    assert TaskOk(s, t);
    StoreMoves(s, t);
    var u := DoStore(s, t);
    var data := s.tasks[t].phase.data;
    var e := Entry(KeyOf(s.tasks[t]), |s.sf.mem[data].content|, data);
    if Resident(s.hot, k) || k == e.key {
      StoredKeeps(s.hot, s.capacity, e, k);
      if !Resident(u.hot, k) {
        var x :| x in Evicted(s.hot, s.capacity, e) && x.key == k;
        assert x in u.pending;
      }
    } else {
      OneCarrierMoves(s, u, t, k);
      CoveredFrame(s, u, k);
    }
  }

  lemma ColdWriteKeeps(s: State, i: nat, k: ChunkKey)
    requires Inv(s) && Enabled(s, ColdWrite(i)) && Covered(s, k)
    ensures Covered(DoColdWrite(s, i), k)
  {
    var u := DoColdWrite(s, i);
    if AwaitsWrite(s, k) && k !in u.cold {
      var e :| e in s.pending && e.key == k;
      assert e in u.pending;
    }
    if Carried(s, k) {
      var t :| t in s.tasks && Carries(s, t, k);
      assert Carries(u, t, k);
    }
  }

  lemma StepKeepsCovered(s: State, a: Action, k: ChunkKey)
    requires Inv(s) && Enabled(s, a) && !a.ColdFail? && Covered(s, k)
    ensures Covered(Step(s, a), k)
  {
    match a
    case Look(t) => LookKeeps(s, t, k);
    case ReadCold(t, addr) => ReadColdKeeps(s, t, addr, k);
    case Acquire(t, buf) => AcquireKeeps(s, t, buf, k);
    case Protocol(step) => ProtocolKeeps(s, step, k);
    case Return(t, addr) => ReturnKeeps(s, t, addr, k);
    case Store(t) => StoreKeeps(s, t, k);
    case ColdWrite(i) => ColdWriteKeeps(s, i, k);
    case _ => IdleKeeps(s, a, k);
  }

  lemma StepLosesNothing(s: State, a: Action)
    requires Inv(s) && Enabled(s, a) && !a.ColdFail? && NothingLost(s)
    ensures NothingLost(Step(s, a))
  {
    var u := Step(s, a);
    forall k | k in u.fetched ensures Covered(u, k) {
      if k in s.fetched { StepKeepsCovered(s, a, k); } else { NewlyFetched(s, a, k); }
    }
  }

  lemma NewlyFetched(s: State, a: Action, k: ChunkKey)
    requires Inv(s) && Enabled(s, a) && k !in s.fetched && k in Step(s, a).fetched
    ensures Covered(Step(s, a), k)
  {
    assert a.Protocol? && a.step.GetOk?;
    assert Carries(Step(s, a), a.step.c, k);
  }

  // ---------------------------------------------------------------- theorems

  lemma {:induction false} RunLosesNothing(s: State, actions: seq<Action>)
    requires Inv(s) && NothingLost(s) && CanRun(s, actions)
    requires forall a | a in actions :: !a.ColdFail?
    ensures NothingLost(Run(s, actions))
    decreases |actions|
  {
    if actions != [] {
      StepKeepsInv(s, actions[0]);
      StepLosesNothing(s, actions[0]);
      RunLosesNothing(Step(s, actions[0]), actions[1..]);
    }
  }

  /** The action is a GET of the chunk that succeeds. */
  predicate GetsNow(s: State, a: Action, k: ChunkKey) {
    a.Protocol? && a.step.GetOk? && a.step.c in s.sf.calls && s.sf.calls[a.step.c].key == k
  }

  /** Some GET of the chunk succeeds in the course of the run. */
  ghost predicate Gotten(s: State, actions: seq<Action>, k: ChunkKey)
    requires Inv(s) && CanRun(s, actions)
    decreases |actions|
  {
    actions != [] &&
      (GetsNow(s, actions[0], k)
       || (StepKeepsInv(s, actions[0]); Gotten(Step(s, actions[0]), actions[1..], k)))
  }

  lemma StepFetches(s: State, a: Action, k: ChunkKey)
    requires Inv(s) && Enabled(s, a)
    ensures k in Step(s, a).fetched <==> k in s.fetched || GetsNow(s, a, k)
  {
    match a
    case Look(t) => assert TaskOk(s, t);
    case Return(t, addr) => assert TaskOk(s, t);
    case Store(t) => assert TaskOk(s, t);
    case _ =>
  }

  /** The history of fetched chunks is right. */
  lemma {:induction false} FetchedIsGotten(s: State, actions: seq<Action>, k: ChunkKey)
    requires Inv(s) && CanRun(s, actions)
    ensures k in Run(s, actions).fetched <==> k in s.fetched || Gotten(s, actions, k)
    decreases |actions|
  {
    if actions != [] {
      StepKeepsInv(s, actions[0]);
      StepFetches(s, actions[0], k);
      FetchedIsGotten(Step(s, actions[0]), actions[1..], k);
    }
  }

  /** Over every run in which no background write fails, every chunk a GET has returned is
      still on the disk, in memory, in a pending write, or carried by a task. */
  lemma NoFetchedChunkIsLost(s: State, actions: seq<Action>, k: ChunkKey)
    requires Initial(s) && Inv(s) && CanRun(s, actions)
    requires forall a | a in actions :: !a.ColdFail?
    requires Gotten(s, actions, k)
    ensures var u := Run(s, actions);
            k in u.cold || Resident(u.hot, k) || AwaitsWrite(u, k) || Carried(u, k)
  {
    RunLosesNothing(s, actions);
    FetchedIsGotten(s, actions, k);
    assert Covered(Run(s, actions), k);
  }

  lemma {:induction false} DiskOnlyGrows(s: State, actions: seq<Action>, k: ChunkKey)
    requires Inv(s) && CanRun(s, actions) && k in s.cold
    ensures k in Run(s, actions).cold
    decreases |actions|
  {
    if actions != [] {
      StepKeepsInv(s, actions[0]);
      StepKeepsCold(s, actions[0], k);
      DiskOnlyGrows(Step(s, actions[0]), actions[1..], k);
    }
  }

  lemma StepKeepsCold(s: State, a: Action, k: ChunkKey)
    requires Inv(s) && Enabled(s, a) && k in s.cold
    ensures k in Step(s, a).cold
  {
    match a
    case Look(t) => assert TaskOk(s, t);
    case _ =>
  }

  /** The others run, task t does not, and then it is about to read the disk. */
  ghost predicate StillAsking(m: State, actions: seq<Action>, t: TaskId, a: Addr)
    requires Inv(m)
  {
    && CanRun(m, actions)
    && var u := Run(m, actions);
       Enabled(u, ReadCold(t, a)) && t in m.tasks && u.tasks[t] == m.tasks[t]
  }

  /** When a handler asks memory for a chunk that was fetched before, and misses, and at that
      moment nobody is carrying the chunk and no write of it is pending, then, whatever the
      others do meanwhile, it finds the chunk on the disk: it never fetches it again. */
  lemma NoNeedlessRefetch(s: State, t: TaskId, k: ChunkKey, actions: seq<Action>, a: Addr)
    requires Inv(s) && NothingLost(s) && Enabled(s, Look(t)) && s.tasks[t].Handler? && Inv(DoLook(s, t))
    requires k in s.fetched && WorksOn(s.tasks[t], k) && !Carried(s, k) && !AwaitsWrite(s, k)
    requires StillAsking(DoLook(s, t), actions, t, a)
    ensures DoReadCold(Run(DoLook(s, t), actions), t, a).tasks[t].phase == Storing(a, None)
  {
    MissedIsOnDisk(s, t, k);
    var u := Run(DoLook(s, t), actions);
    DiskOnlyGrows(DoLook(s, t), actions, k);
    ReadsDisk(u, t, k, a);
  }

  lemma MissedIsOnDisk(s: State, t: TaskId, k: ChunkKey)
    requires Inv(s) && Enabled(s, Look(t)) && s.tasks[t].Handler? && WorksOn(s.tasks[t], k)
    requires Covered(s, k) && !Carried(s, k) && !AwaitsWrite(s, k)
    ensures WorksOn(DoLook(s, t).tasks[t], k) || !DoLook(s, t).tasks[t].phase.ColdLooking?
    ensures DoLook(s, t).tasks[t].phase.ColdLooking? ==> k in DoLook(s, t).cold
  {
    assert TaskOk(s, t) && KeyOf(s.tasks[t]) == k;
  }

  lemma ReadsDisk(s: State, t: TaskId, k: ChunkKey, a: Addr)
    requires Inv(s) && Enabled(s, ReadCold(t, a)) && WorksOn(s.tasks[t], k) && k in s.cold
    ensures DoReadCold(s, t, a).tasks[t].phase == Storing(a, None)
  {
    assert TaskOk(s, t) && KeyOf(s.tasks[t]) == k;
  }
}
