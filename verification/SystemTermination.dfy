/** Once no more requests and jobs arrive, the whole proxy comes to rest: every run of its
    tasks, fetches, evictions and background writes is finite, with an explicit bound. */
module SystemTermination {
  import opened Basics
  import opened HotSpec
  import opened LruSpec
  import opened Fnv
  import opened System
  import opened SystemSafety
  import opened SystemTheorems
  import SF = SingleFlight
  import Env = SingleFlightEnv
  import End = SingleFlightTermination

  // ---------------------------------------------------------------- the measure

  /** The chunks that a handler has yet to resolve. */
  function Left(task: Task): nat
    requires task.Handler?
  {
    var (last, next) := (ChunkOf(task.end), ChunkOf(task.start) + |task.chunks|);
    if next > last then 0 else last - next + 1
  }

  function PhaseCost(p: Phase, returned: bool): nat {
    match p
    case Looking => 6
    case ColdLooking => 5
    case NeedBuffer => 4
    case Fetching(_) => if returned then 2 else 3
    case Storing(_, _) => 1
    case _ => 0
  }

  /** How many steps a task has left, if its fetches were single steps. */
  function Cost(task: Task, returned: bool): nat {
    match task
    case Worker(_, phase) => PhaseCost(phase, returned)
    case Handler(_, _, _, _, chunks, _, phase) =>
      match phase
      case Writing(i) => if i <= |chunks| then |chunks| + 2 - i else 1
      case Finished => 0
      case Failed => 0
      case _ => 8 * Left(task) + |chunks| + 2 + PhaseCost(phase, returned)
  }

  predicate HasReturned(s: State, t: TaskId) {
    t in s.sf.calls && s.sf.calls[t].phase.Returned?
  }

  function CostOf(s: State, t: TaskId): nat
    requires t in s.tasks
  {
    Cost(s.tasks[t], HasReturned(s, t))
  }

  /** How far the task's fetch is from its next decisive step. */
  function RankOf(s: State, t: TaskId): (r: nat)
    ensures r <= 6
  {
    if t in s.sf.calls then End.Rank(s.sf, t) else 0
  }

  function Costs(s: State, ts: seq<TaskId>): nat
    requires forall t | t in ts :: t in s.tasks
  {
    if ts == [] then 0 else CostOf(s, ts[0]) + Costs(s, ts[1..])
  }

  function Ranks(s: State, ts: seq<TaskId>): (r: nat)
    ensures r <= 6 * |ts|
  {
    if ts == [] then 0 else RankOf(s, ts[0]) + Ranks(s, ts[1..])
  }

  /** How many entries there are in the first n shards. */
  function Count(st: Shards<Addr>, n: nat): nat
    requires n <= NUM_SHARDS
  {
    if n == 0 then 0 else Count(st, n - 1) + |st[n - 1]|
  }

  /** Entries in memory and on their way to the disk. */
  function Kept(s: State): nat {
    Count(s.hot, NUM_SHARDS) + |s.pending|
  }

  function Progress(s: State, ts: seq<TaskId>, n: nat): nat
    requires forall t | t in ts :: t in s.tasks
  {
    Costs(s, ts) * (6 * n + 1) + Ranks(s, ts)
  }

  /** A bound on the length of every run from s, if there are no more than n tasks. */
  function Work(s: State, ts: seq<TaskId>, n: nat): nat
    requires forall t | t in ts :: t in s.tasks
  {
    2 * Progress(s, ts, n) + Kept(s)
  }

  // ---------------------------------------------------------------- sums

  lemma {:induction false} CostsDrop(s: State, u: State, ts: seq<TaskId>, t: TaskId, strict: bool)
    requires forall x | x in ts :: x in s.tasks && x in u.tasks && CostOf(u, x) <= CostOf(s, x)
    requires t in s.tasks && t in u.tasks && (strict ==> CostOf(u, t) < CostOf(s, t))
    ensures Costs(u, ts) <= Costs(s, ts)
    ensures strict && t in ts ==> Costs(u, ts) < Costs(s, ts)
  {
    if ts != [] { CostsDrop(s, u, ts[1..], t, strict); }
  }

  lemma {:induction false} RanksDrop(s: State, u: State, ts: seq<TaskId>, t: TaskId)
    requires forall x | x in ts :: RankOf(u, x) <= RankOf(s, x)
    requires RankOf(u, t) < RankOf(s, t)
    ensures Ranks(u, ts) <= Ranks(s, ts)
    ensures t in ts ==> Ranks(u, ts) < Ranks(s, ts)
  {
    if ts != [] { RanksDrop(s, u, ts[1..], t); }
  }

  lemma {:induction false} CountUpdate(st: Shards<Addr>, i: nat, l: seq<Entry<Addr>>, n: nat)
    requires i < NUM_SHARDS && n <= NUM_SHARDS
    ensures Count(st[i := l], n) == Count(st, n) + if i < n then |l| - |st[i]| else 0
  {
    if n > 0 { CountUpdate(st, i, l, n - 1); }
  }

  lemma LengthAfter(l: seq<Entry<Addr>>, capacity: int, e: Entry<Addr>)
    ensures |AfterGet(l, e.key)| == |l|
    ensures |AfterPut(l, capacity, e)| + |Victims(l, capacity, e)| <= |l| + 1
  {
  }

  lemma GotKept(st: Shards<Addr>, k: ChunkKey)
    ensures Count(Got(st, k), NUM_SHARDS) == Count(st, NUM_SHARDS)
  {
    LengthAfter(ListOf(st, k), 0, Entry(k, 0, 0));
    CountUpdate(st, ShardOf(k), AfterGet(ListOf(st, k), k), NUM_SHARDS);
  }

  lemma StoredKept(st: Shards<Addr>, capacity: int, e: Entry<Addr>)
    ensures Count(Stored(st, capacity, e), NUM_SHARDS) + |Evicted(st, capacity, e)| <= Count(st, NUM_SHARDS) + 1
  {
    LengthAfter(ListOf(st, e.key), PerShard(capacity), e);
    CountUpdate(st, ShardOf(e.key), AfterPut(ListOf(st, e.key), PerShard(capacity), e), NUM_SHARDS);
  }

  // ---------------------------------------------------------------- steps of tasks

  /** Task t comes closer to its end, the others stay, at most one more entry is kept. */
  ghost predicate Advances(s: State, u: State, t: TaskId) {
    && t in s.tasks && OthersSame(s, u, t)
    && (forall x | x in s.tasks && x != t :: HasReturned(u, x) == HasReturned(s, x))
    && CostOf(u, t) < CostOf(s, t)
    && Kept(u) <= Kept(s) + 1
  }

  /** Having resolved a chunk, a task is closer to its end. */
  lemma DeliveryDrops(sf: SF.State, task: Task, data: Addr, r: bool, r': bool)
    requires task.Handler? ==> HandlerOk(sf, task)
    requires !task.phase.Writing? && !task.phase.Finished? && !task.phase.Failed?
    ensures Cost(Delivered(task, data), r') < Cost(task, r)
  {
  }

  lemma PhaseDrops(sf: SF.State, task: Task, p: Phase, r: bool, r': bool)
    requires task.Handler? ==> HandlerOk(sf, task)
    requires !task.phase.Writing? && !p.Writing? && !p.Finished? && !p.Failed?
    requires !task.phase.Finished? && !task.phase.Failed? && PhaseCost(p, r') < PhaseCost(task.phase, r)
    ensures Cost(At(task, p), r') < Cost(task, r)
  {
  }

  lemma LookAdvances(s: State, t: TaskId)
    requires Inv(s) && Enabled(s, Look(t))
    ensures Advances(s, DoLook(s, t), t)
  {
    assert TaskOk(s, t);
    var (task, k) := (s.tasks[t], KeyOf(s.tasks[t]));
    if Resident(s.hot, k) {
      var l := ListOf(s.hot, k);
      DeliveryDrops(s.sf, task, l[Find(l, k)].val, HasReturned(s, t), HasReturned(s, t));
      GotKept(s.hot, k);
    } else {
      PhaseDrops(s.sf, task, if task.Handler? then ColdLooking else NeedBuffer, HasReturned(s, t), HasReturned(s, t));
    }
  }

  lemma ReadColdAdvances(s: State, t: TaskId, a: Addr)
    requires Inv(s) && Enabled(s, ReadCold(t, a))
    ensures Advances(s, DoReadCold(s, t, a), t)
  {
    assert TaskOk(s, t);
    var p := if KeyOf(s.tasks[t]) in s.cold then Storing(a, None) else NeedBuffer;
    PhaseDrops(s.sf, s.tasks[t], p, HasReturned(s, t), HasReturned(s, t));
  }

  lemma ReadFailsAdvances(s: State, t: TaskId)
    requires Inv(s) && Enabled(s, ReadFails(t))
    ensures Advances(s, Step(s, ReadFails(t)), t)
  {
    assert TaskOk(s, t);
    PhaseDrops(s.sf, s.tasks[t], NeedBuffer, HasReturned(s, t), HasReturned(s, t));
  }

  lemma AcquireAdvances(s: State, t: TaskId, buf: Addr)
    requires Inv(s) && Enabled(s, Acquire(t, buf))
    ensures Advances(s, DoAcquire(s, t, buf), t)
  {
    assert TaskOk(s, t);
    if buf in s.pool { assert PoolOk(s, buf); }
    PhaseDrops(s.sf, s.tasks[t], Fetching(buf), HasReturned(s, t), false);
  }

  /** Leaving the fetch for a phase or a chunk that makes the task cheaper. */
  lemma TurnAdvances(s: State, u: State, t: TaskId, task: Task, b: Option<Addr>)
    requires t in s.tasks && Turned(s, u, t, task, b)
    requires u.sf.calls == s.sf.calls - {t} && t in s.sf.calls && s.sf.calls[t].phase.Returned?
    requires Cost(task, false) < Cost(s.tasks[t], true)
    ensures Advances(s, u, t)
  {
  }

  lemma FailDrops(task: Task, buf: Addr)
    requires task.phase == Fetching(buf)
    ensures Cost(At(task, Failed), false) < Cost(task, true)
  {
  }

  lemma FailedAdvances(s: State, u: State, t: TaskId, buf: Addr)
    requires t in s.tasks && s.tasks[t].phase == Fetching(buf) && buf in s.sf.mem
    requires t in s.sf.calls && s.sf.calls[t].phase.Returned?
    requires Turned(s, u, t, At(s.tasks[t], Failed), Some(buf)) && u.sf == Env.Hand(Env.End(s.sf, t), buf, SF.Free)
    ensures Advances(s, u, t)
  {
    FailDrops(s.tasks[t], buf);
    TurnAdvances(s, u, t, At(s.tasks[t], Failed), Some(buf));
  }

  lemma JoinedAdvances(s: State, u: State, t: TaskId, a: Addr, buf: Addr)
    requires t in s.tasks && TaskOk(s, t) && s.tasks[t].Handler? && s.tasks[t].phase == Fetching(buf)
    requires t in s.sf.calls && s.sf.calls[t].phase.Returned? && u.sf.calls == s.sf.calls - {t}
    requires Turned(s, u, t, Delivered(s.tasks[t], a), Some(buf))
    ensures Advances(s, u, t)
  {
    DeliveryDrops(s.sf, s.tasks[t], a, true, false);
    TurnAdvances(s, u, t, Delivered(s.tasks[t], a), Some(buf));
  }

  lemma LedAdvances(s: State, u: State, t: TaskId, a: Addr, buf: Addr)
    requires t in s.tasks && TaskOk(s, t) && s.tasks[t].phase == Fetching(buf)
    requires t in s.sf.calls && s.sf.calls[t].phase.Returned? && u.sf.calls == s.sf.calls - {t}
    requires Turned(s, u, t, At(s.tasks[t], Storing(a, Some(buf))), None)
    ensures Advances(s, u, t)
  {
    PhaseDrops(s.sf, s.tasks[t], Storing(a, Some(buf)), true, false);
    TurnAdvances(s, u, t, At(s.tasks[t], Storing(a, Some(buf))), None);
  }

  lemma ReturnAdvances(s: State, t: TaskId, a: Addr)
    requires Inv(s) && Enabled(s, Return(t, a))
    ensures Advances(s, DoReturn(s, t, a), t)
  {
    assert TaskOk(s, t) && SF.CallOk(s.sf, t);
    var (u, buf) := (DoReturn(s, t, a), s.tasks[t].phase.buf);
    if !s.sf.calls[t].phase.ok {
      FailEffect(s, t, a);
      FailedAdvances(s, u, t, buf);
    } else if s.sf.calls[t].phase.joined && s.tasks[t].Handler? {
      JoinedEffect(s, t, a);
      JoinedAdvances(s, u, t, a, buf);
    } else {
      LedEffect(s, t, a);
      LedAdvances(s, u, t, a, buf);
    }
  }

  lemma StoreAdvances(s: State, t: TaskId)
    requires Inv(s) && Enabled(s, Store(t))
    ensures Advances(s, DoStore(s, t), t)
  {
    assert TaskOk(s, t);
    var data := s.tasks[t].phase.data;
    DeliveryDrops(s.sf, s.tasks[t], data, HasReturned(s, t), HasReturned(s, t));
    StoredKept(s.hot, s.capacity, Entry(KeyOf(s.tasks[t]), |s.sf.mem[data].content|, data));
  }

  lemma SliceDrops(sf: SF.State, task: Task, r: bool)
    requires task.Handler? && task.phase.Writing? && HandlerOk(sf, task)
    ensures Cost(Written(sf, task), r) < Cost(task, r)
    ensures forall n: nat :: Cost(BrokenOff(sf, task, n), r) < Cost(task, r)
  {
    var i := task.phase.i;
    if i < |task.chunks| {
      assert IsChunk(sf, task.chunks[i], ChunkKey(task.key, ChunkOf(task.start) + i));
    }
  }

  lemma WriteAdvances(s: State, a: Action)
    requires Inv(s) && Enabled(s, a) && (a.Write? || a.Disconnect?)
    ensures Advances(s, Step(s, a), a.t)
  {
    assert TaskOk(s, a.t);
    SliceDrops(s.sf, s.tasks[a.t], HasReturned(s, a.t));
  }

  // ---------------------------------------------------------------- every step

  lemma CheaperTasks(s: State, u: State, ts: seq<TaskId>, n: nat, t: TaskId)
    requires Advances(s, u, t) && End.Lists(ts, s.tasks.Keys) && |ts| <= n
    ensures forall x | x in ts :: x in u.tasks
    ensures Work(u, ts, n) < Work(s, ts, n)
  {
    forall x | x in ts ensures x in u.tasks && CostOf(u, x) <= CostOf(s, x) {
      assert x in s.tasks.Keys + {t};
    }
    CostsDrop(s, u, ts, t, true);
    assert t in ts;
    End.Lexicographic(Costs(u, ts), Ranks(u, ts), Costs(s, ts), Ranks(s, ts), 6 * n + 1);
  }

  /** The caches and tasks stay; one fetch ends, or comes closer to its end. */
  lemma CloserFetch(s: State, u: State, ts: seq<TaskId>, n: nat, c: TaskId, closes: bool)
    requires u.tasks == s.tasks && u.hot == s.hot && u.pending == s.pending
    requires c in s.tasks && End.Lists(ts, s.tasks.Keys) && |ts| <= n
    requires forall x | x in ts :: CostOf(u, x) <= CostOf(s, x)
    requires closes ==> CostOf(u, c) < CostOf(s, c)
    requires !closes ==> RankOf(u, c) < RankOf(s, c) && forall x | x in ts :: RankOf(u, x) <= RankOf(s, x)
    ensures Work(u, ts, n) < Work(s, ts, n)
  {
    assert c in s.tasks.Keys && c in ts;
    CostsDrop(s, u, ts, c, closes);
    if !closes { RanksDrop(s, u, ts, c); }
    End.Lexicographic(Costs(u, ts), Ranks(u, ts), Costs(s, ts), Ranks(s, ts), 6 * n + 1);
  }

  lemma ProtocolDrops(s: State, u: State, step: SF.Action, ts: seq<TaskId>, n: nat)
    requires Inv(s) && Enabled(s, Protocol(step)) && u == Step(s, Protocol(step))
    requires End.Lists(ts, s.tasks.Keys) && |ts| <= n
    ensures forall x | x in ts :: x in u.tasks
    ensures Work(u, ts, n) < Work(s, ts, n)
  {
    assert step.c in s.tasks;
    forall x | x in ts ensures CostOf(u, x) <= CostOf(s, x) {
      assert x in s.tasks.Keys;
      CallNeverUnreturns(s, step, x);
    }
    CallNeverUnreturns(s, step, step.c);
    if !step.Close? {
      forall x | x in ts ensures RankOf(u, x) <= RankOf(s, x) { RankFalls(s, step, x); }
      RankFalls(s, step, step.c);
    }
    CloserFetch(s, u, ts, n, step.c, step.Close?);
  }

  lemma CallNeverUnreturns(s: State, step: SF.Action, x: TaskId)
    requires Inv(s) && Enabled(s, Protocol(step)) && x in s.tasks
    ensures HasReturned(s, x) ==> HasReturned(Step(s, Protocol(step)), x)
    ensures CostOf(Step(s, Protocol(step)), x) <= CostOf(s, x)
    ensures step.Close? && x == step.c ==> CostOf(Step(s, Protocol(step)), x) < CostOf(s, x)
  {
    End.StepMoves(s.sf, step);
    assert TaskOk(s, x);
  }

  lemma RankFalls(s: State, step: SF.Action, x: TaskId)
    requires Inv(s) && Enabled(s, Protocol(step)) && !step.Close?
    ensures RankOf(Step(s, Protocol(step)), x) <= RankOf(s, x)
    ensures x == step.c ==> RankOf(Step(s, Protocol(step)), x) < RankOf(s, x)
  {
    End.StepMoves(s.sf, step);
    if x in s.sf.calls && x != step.c {
      End.AllWait(s.sf);
      End.OthersDoNotRise(s.sf, SF.Step(s.sf, step), step.c, x);
    }
  }

  /** A background write ends, well or badly. */
  lemma ColdDrops(s: State, a: Action, ts: seq<TaskId>, n: nat)
    requires Inv(s) && Enabled(s, a) && (a.ColdWrite? || a.ColdFail?) && End.Lists(ts, s.tasks.Keys) && |ts| <= n
    ensures forall x | x in ts :: x in Step(s, a).tasks
    ensures Work(Step(s, a), ts, n) < Work(s, ts, n)
  {
    var u := Step(s, a);
    SameCosts(s, u, ts);
  }

  lemma {:induction false} SameCosts(s: State, u: State, ts: seq<TaskId>)
    requires u.tasks == s.tasks && u.sf == s.sf && forall t | t in ts :: t in s.tasks
    ensures Costs(u, ts) == Costs(s, ts) && Ranks(u, ts) == Ranks(s, ts)
  {
    if ts != [] { SameCosts(s, u, ts[1..]); }
  }

  predicate Arrival(a: Action) {
    a.Request? || a.Job?
  }

  lemma StepDrops(s: State, a: Action, ts: seq<TaskId>, n: nat)
    requires Inv(s) && Enabled(s, a) && !Arrival(a) && End.Lists(ts, s.tasks.Keys) && |ts| <= n
    ensures Step(s, a).tasks.Keys == s.tasks.Keys && forall x | x in ts :: x in Step(s, a).tasks
    ensures Work(Step(s, a), ts, n) < Work(s, ts, n)
  {
    StepKeepsRequests(s, a);
    if a.Protocol? {
      ProtocolDrops(s, Step(s, a), a.step, ts, n);
    } else if a.ColdWrite? || a.ColdFail? {
      ColdDrops(s, a, ts, n);
    } else {
      TaskStepAdvances(s, a);
      CheaperTasks(s, Step(s, a), ts, n, a.t);
    }
  }

  lemma TaskStepAdvances(s: State, a: Action)
    requires Inv(s) && Enabled(s, a) && !Arrival(a) && !a.Protocol? && !a.ColdWrite? && !a.ColdFail?
    ensures Advances(s, Step(s, a), a.t)
  {
    match a
    case Look(t) => LookAdvances(s, t);
    case ReadCold(t, addr) => ReadColdAdvances(s, t, addr);
    case ReadFails(t) => ReadFailsAdvances(s, t);
    case Acquire(t, buf) => AcquireAdvances(s, t, buf);
    case Return(t, addr) => ReturnAdvances(s, t, addr);
    case Store(t) => StoreAdvances(s, t);
    case _ => WriteAdvances(s, a);
  }

  /** However its tasks, fetches, cancellations and writes interleave, a run in which no more
      requests and jobs arrive has at most Work(s) steps. */
  lemma {:induction false} RunsAreFinite(s: State, actions: seq<Action>, ts: seq<TaskId>)
    requires Inv(s) && CanRun(s, actions) && End.Lists(ts, s.tasks.Keys)
    requires forall a | a in actions :: !Arrival(a)
    ensures |actions| <= Work(s, ts, |ts|)
    decreases |actions|
  {
    if actions != [] {
      StepKeepsInv(s, actions[0]);
      StepDrops(s, actions[0], ts, |ts|);
      RunsAreFinite(Step(s, actions[0]), actions[1..], ts);
    }
  }

  ghost predicate AtRest(s: State) {
    forall a :: Enabled(s, a) ==> Arrival(a)
  }

  /** Where such a run ends, all is done: every response is finished or failed, every job too,
      and no write is pending. */
  lemma RestMeansDone(s: State)
    requires Inv(s) && AtRest(s)
    ensures forall t | t in s.tasks :: !Unfinished(s, t)
    ensures s.pending == [] && s.sf.calls == map[]
  {
    forall t | t in s.tasks ensures !Unfinished(s, t) {
      if Unfinished(s, t) { NeverStuck(s, t); }
    }
    if s.pending != [] { assert Enabled(s, ColdWrite(0)); }
    assert forall t | t in s.sf.calls :: Unfinished(s, t);
  }
}
