/** The proxy with its predictor comes to rest: once no requests arrive, every run is finite,
    the jobs that its own reads start included, and where it ends nothing is left to do. */
module WholeTermination {
  import opened Basics
  import opened Fnv
  import opened WholeProxy
  import P = Predictor
  import Pre = Prefetch
  import S = System
  import T = SystemTheorems
  import Fin = SystemTermination
  import End = SingleFlightTermination

  // ---------------------------------------------------------------- the measure

  /** The chunks of its range that a handler has not told the tracker of. */
  function UntoldOf(s: State, t: S.TaskId): nat
    requires t in s.sys.tasks
  {
    match s.sys.tasks[t]
    case Worker(_, _) => 0
    case Handler(_, _, start, end, _, _, _) =>
      var left := ChunkOf(end) - ChunkOf(start) + 1 - ToldOf(s, t);
      if left < 0 then 0 else left
  }

  function Untold(s: State, ts: seq<S.TaskId>): nat
    requires forall t | t in ts :: t in s.sys.tasks
  {
    if ts == [] then 0 else UntoldOf(s, ts[0]) + Untold(s, ts[1..])
  }

  // What is left to do, from handlers to workers.
  datatype Load = Load(untold: nat, owed: nat, queued: nat, running: nat, work: nat)

  function LoadOf(cfg: Config, s: State, ts: seq<S.TaskId>, n: nat): Load
    requires forall t | t in ts :: t in s.sys.tasks
  {
    Load(Untold(s, ts), Max(0, Pre.Owed(cfg.prefetch.lookAhead, s.pre.senders)), |s.pre.queue.jobs|,
         |s.pre.running|, Fin.Work(s.sys, ts, n))
  }

  /** More than a job can add to the work of the proxy, if there are n tasks at most. */
  function JobWeight(n: nat): nat {
    12 * (6 * n + 1) + 2
  }

  function Bound(lookAhead: nat, n: nat, l: Load): nat {
    var q := JobWeight(n);
    (lookAhead * (q + 1) + 1) * l.untold + (q + 1) * l.owed + q * l.queued + l.running + l.work
  }

  /** The tasks that there are and those that can still come. */
  function Room(lookAhead: nat, tasks: nat, l: Load): nat {
    tasks + l.queued + l.owed + lookAhead * l.untold
  }

  /** A move goes towards the end, and makes no room for more tasks. */
  predicate Lowers(lookAhead: nat, n: nat, l: Load, tasks: nat, l': Load, tasks': nat) {
    && Bound(lookAhead, n, l') < Bound(lookAhead, n, l)
    && Room(lookAhead, tasks', l') <= Room(lookAhead, tasks, l)
  }

  lemma {:induction false} OwedIsNat(cfg: Pre.Config, senders: seq<Pre.Sender>)
    requires forall x | x in senders :: x.next <= cfg.lookAhead
    ensures Pre.Owed(cfg.lookAhead, senders) >= 0
  {
    if senders != [] {
      var t := senders[..|senders| - 1];
      assert forall x | x in t :: x in senders;
      assert senders[|senders| - 1] in senders;
      OwedIsNat(cfg, t);
    }
  }

  // How each kind of move lowers the bound, in numbers.

  lemma LessByOne(a: nat, x: nat, x': nat)
    requires x == x' + 1
    ensures a * x' == a * x - a
  {
  }

  lemma MoreByAtMost(a: nat, x: nat, x': nat, d: nat)
    requires x' <= x + d
    ensures a * x' <= a * x + a * d
  {
    assert a * x' <= a * (x + d) == a * x + a * d;
  }

  lemma TellLowers(lookAhead: nat, n: nat, l: Load, l': Load, tasks: nat)
    requires l.untold > 0 && l' == l.(untold := l.untold - 1, owed := l'.owed) && l'.owed <= l.owed + lookAhead
    ensures Lowers(lookAhead, n, l, tasks, l', tasks)
  {
    var q := JobWeight(n);
    LessByOne(lookAhead * (q + 1) + 1, l.untold, l'.untold);
    LessByOne(lookAhead, l.untold, l'.untold);
    MoreByAtMost(q + 1, l.owed, l'.owed, lookAhead);
  }

  lemma OfferLowers(lookAhead: nat, n: nat, l: Load, l': Load, tasks: nat)
    requires l.owed > 0 && l' == l.(owed := l.owed - 1, queued := l'.queued) && l'.queued <= l.queued + 1
    ensures Lowers(lookAhead, n, l, tasks, l', tasks)
  {
    var q := JobWeight(n);
    LessByOne(q + 1, l.owed, l'.owed);
    MoreByAtMost(q, l.queued, l'.queued, 1);
  }

  lemma TakeLowers(lookAhead: nat, n: nat, l: Load, l': Load, tasks: nat)
    requires l.queued > 0 && l' == l.(queued := l.queued - 1, running := l.running + 1, work := l'.work)
    requires l'.work == l.work + 12 * (6 * n + 1)
    ensures Lowers(lookAhead, n, l, tasks, l', tasks + 1)
  {
    LessByOne(JobWeight(n), l.queued, l'.queued);
  }

  // ---------------------------------------------------------------- moves of the handlers

  lemma {:induction false} UntoldSame(s: State, u: State, ts: seq<S.TaskId>)
    requires forall t | t in ts :: t in s.sys.tasks && t in u.sys.tasks && UntoldOf(u, t) == UntoldOf(s, t)
    ensures Untold(u, ts) == Untold(s, ts)
  {
    if ts != [] { UntoldSame(s, u, ts[1..]); }
  }

  lemma {:induction false} UntoldOneLess(s: State, u: State, ts: seq<S.TaskId>, t: S.TaskId)
    requires forall x | x in ts :: x in s.sys.tasks && x in u.sys.tasks
    requires forall x | x in ts && x != t :: UntoldOf(u, x) == UntoldOf(s, x)
    requires t in ts && UntoldOf(u, t) == UntoldOf(s, t) - 1
    requires forall i, j | 0 <= i < j < |ts| :: ts[i] != ts[j]
    ensures Untold(u, ts) == Untold(s, ts) - 1
  {
    if ts[0] == t {
      assert t !in ts[1..];
      UntoldSame(s, u, ts[1..]);
    } else {
      UntoldOneLess(s, u, ts[1..], t);
    }
  }

  lemma ProxyUntold(cfg: Config, s: State, a: S.Action, ts: seq<S.TaskId>)
    requires Inv(cfg, s) && Enabled(cfg, s, Proxy(a)) && !a.Request? && forall t | t in ts :: t in s.sys.tasks
    ensures forall t | t in ts :: t in S.Step(s.sys, a).tasks
    ensures Untold(s.(sys := S.Step(s.sys, a)), ts) == Untold(s, ts)
  {
    var u := s.(sys := S.Step(s.sys, a));
    T.StepKeepsRequests(s.sys, a);
    forall t | t in ts ensures UntoldOf(u, t) == UntoldOf(s, t) {
      assert T.SameRequest(s.sys.tasks[t], u.sys.tasks[t]);
    }
    UntoldSame(s, u, ts);
  }

  lemma ProxyMoveLowers(cfg: Config, s: State, a: S.Action, ts: seq<S.TaskId>, n: nat)
    requires Inv(cfg, s) && Enabled(cfg, s, Proxy(a)) && !a.Request?
    requires End.Lists(ts, s.sys.tasks.Keys) && |ts| <= n
    ensures var u := s.(sys := S.Step(s.sys, a));
            && u.sys.tasks.Keys == s.sys.tasks.Keys
            && Lowers(cfg.prefetch.lookAhead, n, LoadOf(cfg, s, ts, n), |ts|, LoadOf(cfg, u, ts, n), |ts|)
  {
    ProxyUntold(cfg, s, a, ts);
    Fin.StepDrops(s.sys, a, ts, n);
  }

  lemma TellUntold(cfg: Config, s: State, u: State, ts: seq<S.TaskId>, t: S.TaskId)
    requires Inv(cfg, s) && t in s.sys.tasks && s.sys.tasks[t].Handler? && ToldOf(s, t) < |s.sys.tasks[t].chunks|
    requires u.sys == s.sys && u.told == s.told[t := ToldOf(s, t) + 1] && End.Lists(ts, s.sys.tasks.Keys)
    ensures Untold(u, ts) == Untold(s, ts) - 1
  {
    assert S.TaskOk(s.sys, t);
    UntoldOneLess(s, u, ts, t);
  }

  lemma RecordOwes(cfg: Pre.Config, s: Pre.State, key: ObjectKey, read: P.Read)
    ensures var u := Pre.Step(cfg, s, Pre.Record(key, read));
            && u.queue == s.queue && u.running == s.running
            && Pre.Owed(cfg.lookAhead, u.senders) <= Max(0, Pre.Owed(cfg.lookAhead, s.senders)) + cfg.lookAhead
  {
    OwedSnoc(cfg.lookAhead, s.senders, Pre.Sender(key, read.chunk, 0));
  }

  lemma OwedSnoc(n: nat, senders: seq<Pre.Sender>, x: Pre.Sender)
    ensures Pre.Owed(n, senders + [x]) == Pre.Owed(n, senders) + n - x.next
  {
    assert (senders + [x])[..|senders|] == senders;
  }

  lemma TellLoads(cfg: Config, s: State, u: State, ts: seq<S.TaskId>, n: nat)
    requires u.sys == s.sys && (forall t | t in ts :: t in s.sys.tasks) && Untold(u, ts) == Untold(s, ts) - 1
    requires u.pre.queue == s.pre.queue && u.pre.running == s.pre.running
    requires var k := cfg.prefetch.lookAhead; Pre.Owed(k, u.pre.senders) <= Max(0, Pre.Owed(k, s.pre.senders)) + k
    ensures Lowers(cfg.prefetch.lookAhead, n, LoadOf(cfg, s, ts, n), |ts|, LoadOf(cfg, u, ts, n), |ts|)
  {
    TellLowers(cfg.prefetch.lookAhead, n, LoadOf(cfg, s, ts, n), LoadOf(cfg, u, ts, n), |ts|);
  }

  lemma TellCounts(cfg: Config, s: State, t: S.TaskId, time: real)
    requires t in s.sys.tasks && s.sys.tasks[t].Handler? && NextTold(s, t) < TWO_64
    ensures var (u, k) := (DoTell(cfg, s, t, time), cfg.prefetch.lookAhead);
            && u.sys == s.sys && u.told == s.told[t := ToldOf(s, t) + 1]
            && u.pre.queue == s.pre.queue && u.pre.running == s.pre.running
            && Pre.Owed(k, u.pre.senders) <= Max(0, Pre.Owed(k, s.pre.senders)) + k
  {
    RecordOwes(cfg.prefetch, s.pre, ReadOf(s, t, time).key, ReadOf(s, t, time).read);
  }

  lemma TellMoveLowers(cfg: Config, s: State, t: S.TaskId, time: real, ts: seq<S.TaskId>, n: nat)
    requires Inv(cfg, s) && Enabled(cfg, s, Tell(t, time)) && End.Lists(ts, s.sys.tasks.Keys)
    requires NextTold(s, t) < TWO_64
    ensures var u := DoTell(cfg, s, t, time);
            && u.sys == s.sys
            && Lowers(cfg.prefetch.lookAhead, n, LoadOf(cfg, s, ts, n), |ts|, LoadOf(cfg, u, ts, n), |ts|)
  {
    TellCounts(cfg, s, t, time);
    TellUntold(cfg, s, DoTell(cfg, s, t, time), ts, t);
    TellLoads(cfg, s, DoTell(cfg, s, t, time), ts, n);
  }

  // ---------------------------------------------------------------- moves of queue and workers

  lemma OwedUpdate(n: nat, senders: seq<Pre.Sender>, id: nat, x: Pre.Sender)
    requires id < |senders|
    ensures Pre.Owed(n, senders[id := x]) == Pre.Owed(n, senders) - x.next + senders[id].next
  {
    Pre.OfferedOrOwed(n, senders);
    Pre.OfferedOrOwed(n, senders[id := x]);
    Pre.OfferedUpdate(senders, id, x);
  }

  lemma SendOwes(cfg: Pre.Config, s: Pre.State, id: nat)
    requires Pre.Enabled(cfg, s, Pre.Send(id))
    ensures var u := Pre.Step(cfg, s, Pre.Send(id));
            && u.running == s.running && |u.queue.jobs| <= |s.queue.jobs| + 1
            && Pre.Owed(cfg.lookAhead, u.senders) == Pre.Owed(cfg.lookAhead, s.senders) - 1
  {
    OwedUpdate(cfg.lookAhead, s.senders, id, s.senders[id].(next := s.senders[id].next + 1));
  }

  lemma OfferLoads(cfg: Config, s: State, u: State, ts: seq<S.TaskId>, n: nat)
    requires u.sys == s.sys && u.told == s.told && forall t | t in ts :: t in s.sys.tasks
    requires u.pre.running == s.pre.running && |u.pre.queue.jobs| <= |s.pre.queue.jobs| + 1
    requires var k := cfg.prefetch.lookAhead; 0 <= Pre.Owed(k, u.pre.senders) == Pre.Owed(k, s.pre.senders) - 1
    ensures Lowers(cfg.prefetch.lookAhead, n, LoadOf(cfg, s, ts, n), |ts|, LoadOf(cfg, u, ts, n), |ts|)
  {
    UntoldSame(s, u, ts);
    OfferLowers(cfg.prefetch.lookAhead, n, LoadOf(cfg, s, ts, n), LoadOf(cfg, u, ts, n), |ts|);
  }

  lemma OfferMoveLowers(cfg: Config, s: State, id: nat, ts: seq<S.TaskId>, n: nat)
    requires Inv(cfg, s) && Enabled(cfg, s, Offer(id)) && forall t | t in ts :: t in s.sys.tasks
    ensures var u := s.(pre := Pre.Step(cfg.prefetch, s.pre, Pre.Send(id)));
            Lowers(cfg.prefetch.lookAhead, n, LoadOf(cfg, s, ts, n), |ts|, LoadOf(cfg, u, ts, n), |ts|)
  {
    var u := s.(pre := Pre.Step(cfg.prefetch, s.pre, Pre.Send(id)));
    OfferKeepsInv(cfg, s, id);
    SendOwes(cfg.prefetch, s.pre, id);
    OwedIsNat(cfg.prefetch, u.pre.senders);
    OfferLoads(cfg, s, u, ts, n);
  }

  lemma {:induction false} CostsSnoc(s: S.State, u: S.State, ts: seq<S.TaskId>, t: S.TaskId)
    requires (forall x | x in ts :: x in s.tasks) && t in u.tasks
    requires forall x | x in s.tasks :: x in u.tasks && Fin.CostOf(u, x) == Fin.CostOf(s, x)
    requires forall x :: Fin.RankOf(u, x) == Fin.RankOf(s, x)
    ensures Fin.Costs(u, ts + [t]) == Fin.Costs(s, ts) + Fin.CostOf(u, t)
    ensures Fin.Ranks(u, ts + [t]) == Fin.Ranks(s, ts) + Fin.RankOf(u, t)
  {
    if ts == [] {
      assert ts + [t] == [t];
    } else {
      assert (ts + [t])[1..] == ts[1..] + [t];
      CostsSnoc(s, u, ts[1..], t);
    }
  }

  /** A new job adds six steps, and no fetch yet. */
  lemma JobAddsWork(s: S.State, ts: seq<S.TaskId>, n: nat, t: S.TaskId, chunk: ChunkKey)
    requires S.Inv(s) && t !in s.tasks && forall x | x in ts :: x in s.tasks
    ensures var u := S.SetTask(s, t, S.Worker(chunk, S.Looking));
            Fin.Work(u, ts + [t], n) == Fin.Work(s, ts, n) + 12 * (6 * n + 1)
  {
    var u := S.SetTask(s, t, S.Worker(chunk, S.Looking));
    assert t !in s.sf.calls;
    CostsSnoc(s, u, ts, t);
    assert (Fin.Costs(s, ts) + 6) * (6 * n + 1) == Fin.Costs(s, ts) * (6 * n + 1) + 6 * (6 * n + 1);
  }

  lemma {:induction false} UntoldSnoc(s: State, u: State, ts: seq<S.TaskId>, t: S.TaskId)
    requires forall x | x in ts :: x in s.sys.tasks && x in u.sys.tasks && UntoldOf(u, x) == UntoldOf(s, x)
    requires t in u.sys.tasks && UntoldOf(u, t) == 0
    ensures Untold(u, ts + [t]) == Untold(s, ts)
  {
    if ts == [] {
      assert ts + [t] == [t];
    } else {
      assert (ts + [t])[1..] == ts[1..] + [t];
      UntoldSnoc(s, u, ts[1..], t);
    }
  }

  lemma TakeCounts(cfg: Pre.Config, s: Pre.State, worker: nat)
    requires Pre.Enabled(cfg, s, Pre.Take(worker))
    ensures var u := Pre.Step(cfg, s, Pre.Take(worker));
            |u.queue.jobs| == |s.queue.jobs| - 1 && |u.running| == |s.running| + 1 && u.senders == s.senders
  {
  }

  lemma TakeLoads(cfg: Config, s: State, u: State, t: S.TaskId, ts: seq<S.TaskId>, n: nat)
    requires (forall x | x in ts :: x in s.sys.tasks && x in u.sys.tasks) && t in u.sys.tasks
    requires Untold(u, ts + [t]) == Untold(s, ts) && u.pre.senders == s.pre.senders
    requires |u.pre.queue.jobs| == |s.pre.queue.jobs| - 1 && |u.pre.running| == |s.pre.running| + 1
    requires Fin.Work(u.sys, ts + [t], n) == Fin.Work(s.sys, ts, n) + 12 * (6 * n + 1)
    ensures var l' := LoadOf(cfg, u, ts + [t], n);
            Lowers(cfg.prefetch.lookAhead, n, LoadOf(cfg, s, ts, n), |ts|, l', |ts| + 1)
  {
    TakeLowers(cfg.prefetch.lookAhead, n, LoadOf(cfg, s, ts, n), LoadOf(cfg, u, ts + [t], n), |ts|);
  }

  lemma ListsMore(ts: seq<S.TaskId>, keys: set<S.TaskId>, t: S.TaskId)
    requires End.Lists(ts, keys) && t !in keys
    ensures End.Lists(ts + [t], keys + {t})
  {
  }

  lemma TakeUntold(cfg: Config, s: State, worker: nat, t: S.TaskId, ts: seq<S.TaskId>)
    requires Enabled(cfg, s, Take(worker, t)) && forall x | x in ts :: x in s.sys.tasks
    ensures var u := DoTake(cfg, s, worker, t);
            && u.sys == S.SetTask(s.sys, t, S.Worker(JobFor(s, t).chunk, S.Looking))
            && u.sys.tasks.Keys == s.sys.tasks.Keys + {t} && u.pre == Pre.Step(cfg.prefetch, s.pre, Pre.Take(worker))
            && Untold(u, ts + [t]) == Untold(s, ts)
  {
    UntoldSnoc(s, DoTake(cfg, s, worker, t), ts, t);
  }

  lemma TakeMoveLowers(cfg: Config, s: State, worker: nat, t: S.TaskId, ts: seq<S.TaskId>, n: nat)
    requires Inv(cfg, s) && Enabled(cfg, s, Take(worker, t)) && End.Lists(ts, s.sys.tasks.Keys)
    ensures var u := DoTake(cfg, s, worker, t);
            && End.Lists(ts + [t], u.sys.tasks.Keys)
            && var l' := LoadOf(cfg, u, ts + [t], n);
               Lowers(cfg.prefetch.lookAhead, n, LoadOf(cfg, s, ts, n), |ts|, l', |ts| + 1)
  {
    TakeUntold(cfg, s, worker, t, ts);
    TakeCounts(cfg.prefetch, s.pre, worker);
    JobAddsWork(s.sys, ts, n, t, JobFor(s, t).chunk);
    ListsMore(ts, s.sys.tasks.Keys, t);
    TakeLoads(cfg, s, DoTake(cfg, s, worker, t), t, ts, n);
  }

  lemma FinishLoads(cfg: Config, s: State, u: State, ts: seq<S.TaskId>, n: nat)
    requires u.sys == s.sys && u.told == s.told && forall t | t in ts :: t in s.sys.tasks
    requires u.pre.senders == s.pre.senders && u.pre.queue == s.pre.queue
    requires |u.pre.running| == |s.pre.running| - 1
    ensures Lowers(cfg.prefetch.lookAhead, n, LoadOf(cfg, s, ts, n), |ts|, LoadOf(cfg, u, ts, n), |ts|)
  {
    UntoldSame(s, u, ts);
  }

  lemma FinishMoveLowers(cfg: Config, s: State, worker: nat, outcome: Pre.Outcome, ts: seq<S.TaskId>, n: nat)
    requires Enabled(cfg, s, Finish(worker, outcome)) && forall t | t in ts :: t in s.sys.tasks
    ensures var u := DoFinish(cfg, s, worker, outcome);
            && u.sys == s.sys
            && Lowers(cfg.prefetch.lookAhead, n, LoadOf(cfg, s, ts, n), |ts|, LoadOf(cfg, u, ts, n), |ts|)
  {
    Pre.FinishEffect(cfg.prefetch, s.pre, worker, outcome);
    Pre.OneLess(s.pre.running, worker);
    FinishLoads(cfg, s, DoFinish(cfg, s, worker, outcome), ts, n);
  }

  // ---------------------------------------------------------------- theorems

  predicate Arrival(m: Move) {
    m.Proxy? && m.a.Request?
  }

  /** The tasks after the move, in a list. */
  function ListAfter(ts: seq<S.TaskId>, m: Move): seq<S.TaskId> {
    if m.Take? then ts + [m.t] else ts
  }

  lemma MoveLowers(cfg: Config, s: State, m: Move, ts: seq<S.TaskId>, n: nat)
    requires Inv(cfg, s) && Enabled(cfg, s, m) && !Arrival(m) && End.Lists(ts, s.sys.tasks.Keys) && |ts| <= n
    ensures var (u, ts') := (Step(cfg, s, m), ListAfter(ts, m));
            && End.Lists(ts', u.sys.tasks.Keys)
            && Lowers(cfg.prefetch.lookAhead, n, LoadOf(cfg, s, ts, n), |ts|, LoadOf(cfg, u, ts', n), |ts'|)
  {
    match m
    case Proxy(a) => ProxyMoveLowers(cfg, s, a, ts, n);
    case Tell(t, time) =>
      TellsRealChunk(cfg, s, t);
      TellMoveLowers(cfg, s, t, time, ts, n);
    case Offer(id) => OfferMoveLowers(cfg, s, id, ts, n);
    case Take(worker, t) => TakeMoveLowers(cfg, s, worker, t, ts, n);
    case Finish(worker, outcome) => FinishMoveLowers(cfg, s, worker, outcome, ts, n);
  }

  lemma RoomForAll(lookAhead: nat, tasks: nat, l: Load)
    ensures tasks <= Room(lookAhead, tasks, l)
  {
  }

  lemma LowerEnds(lookAhead: nat, n: nat, l: Load, tasks: nat, l': Load, tasks': nat)
    requires Lowers(lookAhead, n, l, tasks, l', tasks') && Room(lookAhead, tasks, l) <= n
    ensures Room(lookAhead, tasks', l') <= n && Bound(lookAhead, n, l') + 1 <= Bound(lookAhead, n, l)
  {
  }

  /** Without new requests every run ends, within an explicit number of moves, although each
      chunk that a handler tells of can start lookAhead jobs. */
  lemma {:induction false} RunsAreFinite(cfg: Config, s: State, moves: seq<Move>, ts: seq<S.TaskId>, n: nat)
    requires Inv(cfg, s) && CanRun(cfg, s, moves) && End.Lists(ts, s.sys.tasks.Keys)
    requires forall m | m in moves :: !Arrival(m)
    requires Room(cfg.prefetch.lookAhead, |ts|, LoadOf(cfg, s, ts, n)) <= n
    ensures |moves| <= Bound(cfg.prefetch.lookAhead, n, LoadOf(cfg, s, ts, n))
    decreases |moves|
  {
    if moves != [] {
      var (u, ts', k) := (Step(cfg, s, moves[0]), ListAfter(ts, moves[0]), cfg.prefetch.lookAhead);
      StepKeepsInv(cfg, s, moves[0]);
      RoomForAll(k, |ts|, LoadOf(cfg, s, ts, n));
      MoveLowers(cfg, s, moves[0], ts, n);
      LowerEnds(k, n, LoadOf(cfg, s, ts, n), |ts|, LoadOf(cfg, u, ts', n), |ts'|);
      RunsAreFinite(cfg, u, moves[1..], ts', n);
    }
  }

  ghost predicate AtRest(cfg: Config, s: State) {
    forall m :: Enabled(cfg, s, m) ==> Arrival(m)
  }

  lemma NotEnabled(cfg: Config, s: State, m: Move)
    requires AtRest(cfg, s) && !Arrival(m)
    ensures !Enabled(cfg, s, m)
  {
  }

  lemma RestOfProxy(cfg: Config, s: State)
    requires Inv(cfg, s) && AtRest(cfg, s)
    ensures Fin.AtRest(s.sys)
  {
    forall a | S.Enabled(s.sys, a) ensures Fin.Arrival(a) {
      if !Fin.Arrival(a) { NotEnabled(cfg, s, Proxy(a)); }
    }
  }

  lemma RestOfHandlers(cfg: Config, s: State, t: S.TaskId)
    requires Inv(cfg, s) && AtRest(cfg, s) && t in s.sys.tasks && s.sys.tasks[t].Handler?
    ensures ToldOf(s, t) == |s.sys.tasks[t].chunks|
  {
    NotEnabled(cfg, s, Tell(t, 0.0));
  }

  /** A worker whose job is done could finish it. */
  lemma WorkerIsIdle(cfg: Config, s: State, k: nat)
    requires s.working.Keys == s.pre.running.Keys && AtRest(cfg, s)
    requires k in s.working ==> IsDone(s.sys, s.working[k])
    ensures k !in s.working
  {
    if k in s.working {
      var outcome := if s.sys.tasks[s.working[k]].phase.Failed? then Pre.Failed else Pre.Completed;
      NotEnabled(cfg, s, Finish(k, outcome));
    }
  }

  lemma QueueIsEmpty(cfg: Config, s: State)
    requires AtRest(cfg, s) && cfg.workers > 0 && s.pre.running == map[]
    ensures s.pre.queue.jobs == []
  {
    End.FreshNat(s.sys.tasks.Keys);
    var t: nat :| t !in s.sys.tasks.Keys;
    NotEnabled(cfg, s, Take(0, t));
  }

  lemma RestOfWorkers(cfg: Config, s: State)
    requires Inv(cfg, s) && AtRest(cfg, s) && cfg.workers > 0 && forall t | t in s.sys.tasks :: IsDone(s.sys, t)
    ensures s.pre.running == map[] && s.pre.queue.jobs == []
  {
    forall k: nat ensures k !in s.pre.running { WorkerIsIdle(cfg, s, k); }
    QueueIsEmpty(cfg, s);
  }

  lemma RestOfSenders(cfg: Config, s: State)
    requires Inv(cfg, s) && AtRest(cfg, s)
    ensures Pre.Owed(cfg.prefetch.lookAhead, s.pre.senders) == 0
  {
    forall id: nat | id < |s.pre.senders| ensures s.pre.senders[id].next == cfg.prefetch.lookAhead {
      assert s.pre.senders[id] in s.pre.senders;
      NotEnabled(cfg, s, Offer(id));
    }
    NothingOwed(cfg.prefetch.lookAhead, s.pre.senders);
  }

  lemma {:induction false} NothingOwed(n: nat, senders: seq<Pre.Sender>)
    requires forall i | 0 <= i < |senders| :: senders[i].next == n
    ensures Pre.Owed(n, senders) == 0
  {
    if senders != [] { NothingOwed(n, senders[..|senders| - 1]); }
  }

  /** Where such a run ends: every response and job is finished or failed, no write is pending,
      the tracker knows of every chunk that was resolved, the queue is empty, and each read that
      started a prefetch has led to lookAhead jobs, each of them dropped, skipped, failed or
      completed. */
  lemma RestMeansDone(cfg: Config, s: State)
    requires Inv(cfg, s) && AtRest(cfg, s) && cfg.workers > 0
    ensures forall t | t in s.sys.tasks :: IsDone(s.sys, t)
    ensures s.sys.pending == [] && s.pre.queue.jobs == [] && s.pre.running == map[]
    ensures forall t | t in s.sys.tasks && s.sys.tasks[t].Handler? :: ToldOf(s, t) == |s.sys.tasks[t].chunks|
    ensures s.pre.queue.dropped + s.pre.skipped + s.pre.failed + s.pre.completed ==
            cfg.prefetch.lookAhead * Pre.Starts(cfg.prefetch, s.pre.log)
  {
    RestOfProxy(cfg, s);
    Fin.RestMeansDone(s.sys);
    forall t | t in s.sys.tasks ensures IsDone(s.sys, t) { assert !T.Unfinished(s.sys, t); }
    RestOfWorkers(cfg, s);
    RestOfSenders(cfg, s);
    Pre.OfferedOrOwed(cfg.prefetch.lookAhead, s.pre.senders);
    forall t | t in s.sys.tasks && s.sys.tasks[t].Handler? ensures ToldOf(s, t) == |s.sys.tasks[t].chunks| {
      RestOfHandlers(cfg, s, t);
    }
  }
}
