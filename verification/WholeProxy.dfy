/** The proxy with its predictor: handlers tell the tracker of each chunk, reads that end a
    streak start Schedules, and the workers' jobs are tasks of the proxy. System and Prefetch
    joined, interleaved arbitrarily. */
module WholeProxy {
  import opened Basics
  import opened Fnv
  import P = Predictor
  import Pre = Prefetch
  import S = System
  import T = SystemTheorems
  import Safety = SystemSafety

  datatype Config = Config(prefetch: Pre.Config, workers: nat)

  // told: how many of its chunks each handler told the tracker of.
  // working: the task that is a worker's job.
  datatype State = State(sys: S.State, pre: Pre.State, told: map<S.TaskId, nat>, working: map<nat, S.TaskId>)

  datatype Move =
    | Proxy(a: S.Action)                        // anything but the start of a job
    | Tell(t: S.TaskId, time: real)             // Tracker.Record for the handler's next chunk
    | Offer(id: nat)                            // Schedule id offers its next job
    | Take(worker: nat, t: S.TaskId)            // the worker takes the oldest job, as task t
    | Finish(worker: nat, outcome: Pre.Outcome)

  function ToldOf(s: State, t: S.TaskId): nat {
    if t in s.told then s.told[t] else 0
  }

  function NextTold(s: State, t: S.TaskId): nat
    requires t in s.sys.tasks && s.sys.tasks[t].Handler?
  {
    ChunkOf(s.sys.tasks[t].start) + ToldOf(s, t)
  }

  predicate IsDone(s: S.State, t: S.TaskId) {
    t in s.tasks && (s.tasks[t].phase.Finished? || s.tasks[t].phase.Failed?)
  }

  predicate Enabled(cfg: Config, s: State, m: Move) {
    match m
    case Proxy(a) => !a.Job? && S.Enabled(s.sys, a)
    case Tell(t, time) =>
      t in s.sys.tasks && s.sys.tasks[t].Handler? && ToldOf(s, t) < |s.sys.tasks[t].chunks|
    case Offer(id) => Pre.Enabled(cfg.prefetch, s.pre, Pre.Send(id))
    case Take(worker, t) =>
      worker < cfg.workers && Pre.Enabled(cfg.prefetch, s.pre, Pre.Take(worker)) && t !in s.sys.tasks
    case Finish(worker, outcome) =>
      && worker in s.working && IsDone(s.sys, s.working[worker])
      && Pre.Enabled(cfg.prefetch, s.pre, Pre.Finish(worker, outcome))
      && (outcome.Failed? <==> s.sys.tasks[s.working[worker]].phase.Failed?)
  }

  function JobFor(s: State, t: S.TaskId): S.Action
    requires s.pre.queue.jobs != []
  {
    S.Job(t, ChunkKey(s.pre.queue.jobs[0].objectKey, s.pre.queue.jobs[0].chunkIndex))
  }

  /** The task is the worker's part in this job. */
  predicate WorksOn(task: S.Task, job: Pre.Job) {
    task.Worker? && task.job == ChunkKey(job.objectKey, job.chunkIndex)
  }

  /** Handlers have told of no more chunks than they have; a busy worker's job is a task. */
  predicate Linked(cfg: Config, tasks: map<S.TaskId, S.Task>, running: map<nat, Pre.Job>, told: map<S.TaskId, nat>,
                   working: map<nat, S.TaskId>) {
    && (forall t | t in told :: t in tasks && tasks[t].Handler? && told[t] <= |tasks[t].chunks|)
    && working.Keys == running.Keys
    && (forall k | k in working :: k < cfg.workers && working[k] in tasks && WorksOn(tasks[working[k]], running[k]))
  }

  /** The event is a read, of one of the chunks that handler t has told of: of its object, from
      the 4 MiB chunk of its first byte on. */
  predicate ToldBy(tasks: map<S.TaskId, S.Task>, told: map<S.TaskId, nat>, e: Pre.Event, t: S.TaskId) {
    && e.ReadAt? && t in told && t in tasks && tasks[t].Handler? && tasks[t].key == e.key
    && tasks[t].start / 4194304 <= e.read.chunk < tasks[t].start / 4194304 + told[t]
  }

  ghost predicate AllTold(tasks: map<S.TaskId, S.Task>, told: map<S.TaskId, nat>, log: seq<Pre.Event>) {
    forall e | e in log :: exists t :: ToldBy(tasks, told, e, t)
  }

  ghost predicate Inv(cfg: Config, s: State) {
    && S.Inv(s.sys) && Pre.Inv(cfg.prefetch, s.pre)
    && Linked(cfg, s.sys.tasks, s.pre.running, s.told, s.working)
    && AllTold(s.sys.tasks, s.told, s.pre.log)
  }

  lemma TellsRealChunk(cfg: Config, s: State, t: S.TaskId)
    requires Inv(cfg, s) && t in s.sys.tasks && s.sys.tasks[t].Handler?
    requires ToldOf(s, t) < |s.sys.tasks[t].chunks|
    ensures NextTold(s, t) < TWO_64
  {
    assert S.TaskOk(s.sys, t);
    ChunkOfMonotone(s.sys.tasks[t].end, s.sys.tasks[t].end);
  }

  function ReadOf(s: State, t: S.TaskId, time: real): Pre.Action
    requires t in s.sys.tasks && s.sys.tasks[t].Handler? && NextTold(s, t) < TWO_64
  {
    Pre.Record(s.sys.tasks[t].key, P.Read(NextTold(s, t), time))
  }

  function DoTell(cfg: Config, s: State, t: S.TaskId, time: real): State
    requires t in s.sys.tasks && s.sys.tasks[t].Handler? && NextTold(s, t) < TWO_64
  {
    s.(pre := Pre.Step(cfg.prefetch, s.pre, ReadOf(s, t, time)), told := s.told[t := ToldOf(s, t) + 1])
  }

  function DoTake(cfg: Config, s: State, worker: nat, t: S.TaskId): State
    requires Enabled(cfg, s, Take(worker, t))
  {
    s.(sys := S.SetTask(s.sys, t, S.Worker(JobFor(s, t).chunk, S.Looking)),
       pre := Pre.Step(cfg.prefetch, s.pre, Pre.Take(worker)), working := s.working[worker := t])
  }

  function DoFinish(cfg: Config, s: State, worker: nat, outcome: Pre.Outcome): State
    requires Enabled(cfg, s, Finish(worker, outcome))
  {
    s.(pre := Pre.Step(cfg.prefetch, s.pre, Pre.Finish(worker, outcome)), working := s.working - {worker})
  }

  ghost function Step(cfg: Config, s: State, m: Move): State
    requires Inv(cfg, s) && Enabled(cfg, s, m)
  {
    match m
    case Proxy(a) => s.(sys := S.Step(s.sys, a))
    case Tell(t, time) => TellsRealChunk(cfg, s, t); DoTell(cfg, s, t, time)
    case Offer(id) => s.(pre := Pre.Step(cfg.prefetch, s.pre, Pre.Send(id)))
    case Take(worker, t) => DoTake(cfg, s, worker, t)
    case Finish(worker, outcome) => DoFinish(cfg, s, worker, outcome)
  }

  // ---------------------------------------------------------------- invariant

  /** No task goes, and none becomes another's. */
  predicate TasksKept(tasks: map<S.TaskId, S.Task>, tasks': map<S.TaskId, S.Task>) {
    forall t | t in tasks :: t in tasks' && T.SameRequest(tasks[t], tasks'[t])
  }

  lemma StepKeepsTasks(s: S.State, a: S.Action)
    requires S.Inv(s) && S.Enabled(s, a)
    ensures TasksKept(s.tasks, S.Step(s, a).tasks)
  {
    if !a.Request? && !a.Job? { T.StepKeepsRequests(s, a); }
  }

  lemma LinksKept(cfg: Config, tasks: map<S.TaskId, S.Task>, tasks': map<S.TaskId, S.Task>,
                  running: map<nat, Pre.Job>, told: map<S.TaskId, nat>, working: map<nat, S.TaskId>)
    requires TasksKept(tasks, tasks') && Linked(cfg, tasks, running, told, working)
    ensures Linked(cfg, tasks', running, told, working)
  {
  }

  lemma ToldKept(tasks: map<S.TaskId, S.Task>, tasks': map<S.TaskId, S.Task>, told: map<S.TaskId, nat>,
                 log: seq<Pre.Event>)
    requires TasksKept(tasks, tasks') && AllTold(tasks, told, log)
    ensures AllTold(tasks', told, log)
  {
    forall e | e in log ensures exists t :: ToldBy(tasks', told, e, t) {
      var t :| ToldBy(tasks, told, e, t);
      assert ToldBy(tasks', told, e, t);
    }
  }

  lemma ProxyKeepsInv(cfg: Config, s: State, a: S.Action)
    requires Inv(cfg, s) && Enabled(cfg, s, Proxy(a))
    ensures Inv(cfg, s.(sys := S.Step(s.sys, a)))
  {
    var tasks, tasks' := s.sys.tasks, S.Step(s.sys, a).tasks;
    Safety.StepKeepsInv(s.sys, a);
    StepKeepsTasks(s.sys, a);
    LinksKept(cfg, tasks, tasks', s.pre.running, s.told, s.working);
    ToldKept(tasks, tasks', s.told, s.pre.log);
  }

  lemma TellLinks(cfg: Config, tasks: map<S.TaskId, S.Task>, running: map<nat, Pre.Job>, told: map<S.TaskId, nat>,
                  working: map<nat, S.TaskId>, t: S.TaskId, n: nat)
    requires Linked(cfg, tasks, running, told, working)
    requires t in tasks && tasks[t].Handler? && n <= |tasks[t].chunks|
    ensures Linked(cfg, tasks, running, told[t := n], working)
  {
  }

  /** One more chunk is told of: the next one of its handler. */
  lemma OneMoreTold(tasks: map<S.TaskId, S.Task>, told: map<S.TaskId, nat>, log: seq<Pre.Event>, e: Pre.Event,
                    t: S.TaskId, n: nat)
    requires AllTold(tasks, told, log) && n == if t in told then told[t] else 0
    requires t in tasks && tasks[t].Handler? && e.ReadAt? && e.key == tasks[t].key
    requires e.read.chunk == tasks[t].start / 4194304 + n
    ensures AllTold(tasks, told[t := n + 1], log + [e])
  {
    var told' := told[t := n + 1];
    forall x | x in log + [e] ensures exists u :: ToldBy(tasks, told', x, u) {
      if x in log {
        var u :| ToldBy(tasks, told, x, u);
        assert ToldBy(tasks, told', x, u);
      } else {
        assert ToldBy(tasks, told', x, t);
      }
    }
  }

  lemma RunningStays(cfg: Pre.Config, s: Pre.State, a: Pre.Action)
    requires Pre.Enabled(cfg, s, a) && (a.Record? || a.Send?)
    ensures Pre.Step(cfg, s, a).running == s.running
    ensures Pre.Step(cfg, s, a).log == if a.Record? then s.log + [Pre.ReadAt(a.key, a.read)] else s.log
  {
  }

  lemma TellKeepsLinks(cfg: Config, s: State, t: S.TaskId, e: Pre.Event)
    requires Linked(cfg, s.sys.tasks, s.pre.running, s.told, s.working)
    requires AllTold(s.sys.tasks, s.told, s.pre.log)
    requires t in s.sys.tasks && s.sys.tasks[t].Handler? && ToldOf(s, t) < |s.sys.tasks[t].chunks|
    requires e.ReadAt? && e.key == s.sys.tasks[t].key && e.read.chunk == NextTold(s, t)
    ensures var told := s.told[t := ToldOf(s, t) + 1];
            && Linked(cfg, s.sys.tasks, s.pre.running, told, s.working)
            && AllTold(s.sys.tasks, told, s.pre.log + [e])
  {
    TellLinks(cfg, s.sys.tasks, s.pre.running, s.told, s.working, t, ToldOf(s, t) + 1);
    OneMoreTold(s.sys.tasks, s.told, s.pre.log, e, t, ToldOf(s, t));
  }

  lemma ToldKeepsInv(cfg: Config, s: State, u: State, t: S.TaskId, e: Pre.Event)
    requires Inv(cfg, s) && t in s.sys.tasks && s.sys.tasks[t].Handler? && ToldOf(s, t) < |s.sys.tasks[t].chunks|
    requires e.ReadAt? && e.key == s.sys.tasks[t].key && e.read.chunk == NextTold(s, t)
    requires u.sys == s.sys && u.told == s.told[t := ToldOf(s, t) + 1] && u.working == s.working
    requires Pre.Inv(cfg.prefetch, u.pre) && u.pre.running == s.pre.running && u.pre.log == s.pre.log + [e]
    ensures Inv(cfg, u)
  {
    TellKeepsLinks(cfg, s, t, e);
  }

  lemma RecordInv(cfg: Pre.Config, s: Pre.State, a: Pre.Action) returns (u: Pre.State)
    requires Pre.Inv(cfg, s) && a.Record?
    ensures u == Pre.Step(cfg, s, a) && Pre.Inv(cfg, u)
    ensures u.running == s.running && u.log == s.log + [Pre.ReadAt(a.key, a.read)]
  {
    u := Pre.Step(cfg, s, a);
    Pre.StepKeepsInv(cfg, s, a);
    RunningStays(cfg, s, a);
  }

  lemma TellIs(cfg: Config, s: State, t: S.TaskId, time: real, pre: Pre.State) returns (u: State)
    requires t in s.sys.tasks && s.sys.tasks[t].Handler? && NextTold(s, t) < TWO_64
    requires pre == Pre.Step(cfg.prefetch, s.pre, ReadOf(s, t, time))
    ensures u == DoTell(cfg, s, t, time)
    ensures u.pre == pre && u.told == s.told[t := ToldOf(s, t) + 1] && u.sys == s.sys && u.working == s.working
  {
    u := DoTell(cfg, s, t, time);
  }

  lemma TellKeepsInv(cfg: Config, s: State, t: S.TaskId, time: real)
    requires Inv(cfg, s) && Enabled(cfg, s, Tell(t, time)) && NextTold(s, t) < TWO_64
    ensures Inv(cfg, DoTell(cfg, s, t, time))
  {
    var a := ReadOf(s, t, time);
    var pre := RecordInv(cfg.prefetch, s.pre, a);
    var u := TellIs(cfg, s, t, time, pre);
    ToldKeepsInv(cfg, s, u, t, Pre.ReadAt(a.key, a.read));
  }

  lemma OfferKeepsInv(cfg: Config, s: State, id: nat)
    requires Inv(cfg, s) && Enabled(cfg, s, Offer(id))
    ensures Inv(cfg, s.(pre := Pre.Step(cfg.prefetch, s.pre, Pre.Send(id))))
  {
    Pre.StepKeepsInv(cfg.prefetch, s.pre, Pre.Send(id));
    RunningStays(cfg.prefetch, s.pre, Pre.Send(id));
  }

  lemma JobKeeps(s: S.State, t: S.TaskId, chunk: ChunkKey)
    requires S.Inv(s) && t !in s.tasks
    ensures S.Enabled(s, S.Job(t, chunk)) && S.SetTask(s, t, S.Worker(chunk, S.Looking)) == S.Step(s, S.Job(t, chunk))
    ensures S.Inv(S.SetTask(s, t, S.Worker(chunk, S.Looking)))
  {
    Safety.StepKeepsInv(s, S.Job(t, chunk));
  }

  lemma TakeLinks(cfg: Config, tasks: map<S.TaskId, S.Task>, running: map<nat, Pre.Job>, told: map<S.TaskId, nat>,
                  working: map<nat, S.TaskId>, worker: nat, t: S.TaskId, task: S.Task, job: Pre.Job)
    requires Linked(cfg, tasks, running, told, working) && t !in tasks && worker < cfg.workers && WorksOn(task, job)
    ensures Linked(cfg, tasks[t := task], running[worker := job], told, working[worker := t])
  {
  }

  lemma TakeRuns(cfg: Pre.Config, s: Pre.State, worker: nat)
    requires Pre.Enabled(cfg, s, Pre.Take(worker))
    ensures Pre.Step(cfg, s, Pre.Take(worker)).running == s.running[worker := s.queue.jobs[0]]
    ensures Pre.Step(cfg, s, Pre.Take(worker)).log == s.log
  {
  }

  lemma TakeKeepsLinks(cfg: Config, s: State, worker: nat, t: S.TaskId, task: S.Task, job: Pre.Job)
    requires Linked(cfg, s.sys.tasks, s.pre.running, s.told, s.working)
    requires AllTold(s.sys.tasks, s.told, s.pre.log)
    requires t !in s.sys.tasks && worker < cfg.workers && WorksOn(task, job)
    ensures var tasks := s.sys.tasks[t := task];
            && Linked(cfg, tasks, s.pre.running[worker := job], s.told, s.working[worker := t])
            && AllTold(tasks, s.told, s.pre.log)
  {
    TakeLinks(cfg, s.sys.tasks, s.pre.running, s.told, s.working, worker, t, task, job);
    ToldKept(s.sys.tasks, s.sys.tasks[t := task], s.told, s.pre.log);
  }

  lemma TakeKeepsParts(cfg: Config, s: State, worker: nat, t: S.TaskId)
    requires Inv(cfg, s) && Enabled(cfg, s, Take(worker, t))
    ensures S.Inv(DoTake(cfg, s, worker, t).sys) && Pre.Inv(cfg.prefetch, DoTake(cfg, s, worker, t).pre)
  {
    Pre.StepKeepsInv(cfg.prefetch, s.pre, Pre.Take(worker));
    JobKeeps(s.sys, t, JobFor(s, t).chunk);
  }

  lemma TakeKeepsInv(cfg: Config, s: State, worker: nat, t: S.TaskId)
    requires Inv(cfg, s) && Enabled(cfg, s, Take(worker, t))
    ensures Inv(cfg, DoTake(cfg, s, worker, t))
  {
    TakeKeepsParts(cfg, s, worker, t);
    TakeKeepsLinks(cfg, s, worker, t, S.Worker(JobFor(s, t).chunk, S.Looking), s.pre.queue.jobs[0]);
    TakeRuns(cfg.prefetch, s.pre, worker);
  }

  lemma FinishKeepsInv(cfg: Config, s: State, worker: nat, outcome: Pre.Outcome)
    requires Inv(cfg, s) && Enabled(cfg, s, Finish(worker, outcome))
    ensures Inv(cfg, DoFinish(cfg, s, worker, outcome))
  {
    Pre.StepKeepsInv(cfg.prefetch, s.pre, Pre.Finish(worker, outcome));
    Pre.FinishEffect(cfg.prefetch, s.pre, worker, outcome);
  }

  lemma StepKeepsInv(cfg: Config, s: State, m: Move)
    requires Inv(cfg, s) && Enabled(cfg, s, m)
    ensures Inv(cfg, Step(cfg, s, m))
  {
    match m
    case Proxy(a) => ProxyKeepsInv(cfg, s, a);
    case Tell(t, time) =>
      TellsRealChunk(cfg, s, t);
      TellKeepsInv(cfg, s, t, time);
    case Offer(id) => OfferKeepsInv(cfg, s, id);
    case Take(worker, t) => TakeKeepsInv(cfg, s, worker, t);
    case Finish(worker, outcome) => FinishKeepsInv(cfg, s, worker, outcome);
  }

  // ---------------------------------------------------------------- runs

  ghost predicate CanRun(cfg: Config, s: State, moves: seq<Move>)
    requires Inv(cfg, s)
    decreases |moves|
  {
    moves != [] ==>
      && Enabled(cfg, s, moves[0])
      && (StepKeepsInv(cfg, s, moves[0]); CanRun(cfg, Step(cfg, s, moves[0]), moves[1..]))
  }

  ghost function Run(cfg: Config, s: State, moves: seq<Move>): (t: State)
    requires Inv(cfg, s) && CanRun(cfg, s, moves)
    ensures Inv(cfg, t)
    decreases |moves|
  {
    if moves == [] then s
    else
      StepKeepsInv(cfg, s, moves[0]);
      Run(cfg, Step(cfg, s, moves[0]), moves[1..])
  }

  // ---------------------------------------------------------------- what each part sees of a run

  /** The moves of a run that are actions of the proxy, and those of predictor and queue. */
  ghost function ProxyActions(cfg: Config, s: State, moves: seq<Move>): seq<S.Action>
    requires Inv(cfg, s) && CanRun(cfg, s, moves)
    decreases |moves|
  {
    if moves == [] then []
    else
      StepKeepsInv(cfg, s, moves[0]);
      ProxyPart(s, moves[0]) + ProxyActions(cfg, Step(cfg, s, moves[0]), moves[1..])
  }

  function ProxyPart(s: State, m: Move): seq<S.Action> {
    match m
    case Proxy(a) => [a]
    case Take(_, t) => if s.pre.queue.jobs == [] then [] else [JobFor(s, t)]
    case _ => []
  }

  ghost function PrefetchActions(cfg: Config, s: State, moves: seq<Move>): seq<Pre.Action>
    requires Inv(cfg, s) && CanRun(cfg, s, moves)
    decreases |moves|
  {
    if moves == [] then []
    else
      StepKeepsInv(cfg, s, moves[0]);
      PrefetchPart(cfg, s, moves[0]) + PrefetchActions(cfg, Step(cfg, s, moves[0]), moves[1..])
  }

  ghost function PrefetchPart(cfg: Config, s: State, m: Move): seq<Pre.Action>
    requires Inv(cfg, s) && Enabled(cfg, s, m)
  {
    match m
    case Proxy(_) => []
    case Tell(t, time) =>
      TellsRealChunk(cfg, s, t);
      [ReadOf(s, t, time)]
    case Offer(id) => [Pre.Send(id)]
    case Take(worker, _) => [Pre.Take(worker)]
    case Finish(worker, outcome) => [Pre.Finish(worker, outcome)]
  }

  lemma ProxyStep(cfg: Config, s: State, m: Move)
    requires Inv(cfg, s) && Enabled(cfg, s, m)
    ensures |ProxyPart(s, m)| <= 1
    ensures ProxyPart(s, m) == [] ==> Step(cfg, s, m).sys == s.sys
    ensures ProxyPart(s, m) != [] ==>
              && S.Enabled(s.sys, ProxyPart(s, m)[0])
              && Step(cfg, s, m).sys == S.Step(s.sys, ProxyPart(s, m)[0])
  {
    if m.Take? { JobKeeps(s.sys, m.t, JobFor(s, m.t).chunk); }
  }

  /** An action, or none, and then the rest. */
  lemma ProxyCons(s: S.State, u: S.State, part: seq<S.Action>, later: seq<S.Action>)
    requires S.Inv(s) && S.Inv(u) && T.CanRun(u, later) && |part| <= 1
    requires part == [] ==> u == s
    requires part != [] ==> S.Enabled(s, part[0]) && u == S.Step(s, part[0])
    ensures T.CanRun(s, part + later) && T.Run(s, part + later) == T.Run(u, later)
  {
    if part == [] {
      assert part + later == later;
    } else {
      assert (part + later)[0] == part[0] && (part + later)[1..] == later;
    }
  }

  /** Every run is a run of the proxy: what SystemTheorems, SystemNoLoss, SystemMemory and
      SystemFailures say of all runs holds with the predictor, too. */
  lemma {:induction false} RunsProxy(cfg: Config, s: State, moves: seq<Move>)
    requires Inv(cfg, s) && CanRun(cfg, s, moves)
    ensures T.CanRun(s.sys, ProxyActions(cfg, s, moves))
    ensures T.Run(s.sys, ProxyActions(cfg, s, moves)) == Run(cfg, s, moves).sys
    decreases |moves|
  {
    if moves != [] {
      var m := moves[0];
      StepKeepsInv(cfg, s, m);
      var u, part := Step(cfg, s, m), ProxyPart(s, m);
      ProxyStep(cfg, s, m);
      RunsProxy(cfg, u, moves[1..]);
      ProxyCons(s.sys, u.sys, part, ProxyActions(cfg, u, moves[1..]));
    }
  }

  lemma PrefetchStep(cfg: Config, s: State, m: Move)
    requires Inv(cfg, s) && Enabled(cfg, s, m)
    ensures PrefetchPart(cfg, s, m) == [] ==> Step(cfg, s, m).pre == s.pre
    ensures PrefetchPart(cfg, s, m) != [] ==>
              && |PrefetchPart(cfg, s, m)| == 1
              && Pre.Enabled(cfg.prefetch, s.pre, PrefetchPart(cfg, s, m)[0])
              && Step(cfg, s, m).pre == Pre.Step(cfg.prefetch, s.pre, PrefetchPart(cfg, s, m)[0])
  {
  }

  lemma PrefetchCons(cfg: Pre.Config, s: Pre.State, u: Pre.State, part: seq<Pre.Action>, later: seq<Pre.Action>)
    requires Pre.CanRun(cfg, u, later) && |part| <= 1
    requires part == [] ==> u == s
    requires part != [] ==> Pre.Enabled(cfg, s, part[0]) && u == Pre.Step(cfg, s, part[0])
    ensures Pre.CanRun(cfg, s, part + later) && Pre.Run(cfg, s, part + later) == Pre.Run(cfg, u, later)
  {
    if part == [] {
      assert part + later == later;
    } else {
      assert (part + later)[0] == part[0] && (part + later)[1..] == later;
    }
  }

  /** ... and a run of predictor and queue, so that Prefetch's laws hold as well. */
  lemma {:induction false} RunsPrefetch(cfg: Config, s: State, moves: seq<Move>)
    requires Inv(cfg, s) && CanRun(cfg, s, moves)
    ensures Pre.CanRun(cfg.prefetch, s.pre, PrefetchActions(cfg, s, moves))
    ensures Pre.Run(cfg.prefetch, s.pre, PrefetchActions(cfg, s, moves)) == Run(cfg, s, moves).pre
    decreases |moves|
  {
    if moves != [] {
      var m := moves[0];
      StepKeepsInv(cfg, s, m);
      RunsPrefetch(cfg, Step(cfg, s, m), moves[1..]);
      PrefetchStep(cfg, s, m);
      PrefetchCons(cfg.prefetch, s.pre, Step(cfg, s, m).pre, PrefetchPart(cfg, s, m),
                   PrefetchActions(cfg, Step(cfg, s, m), moves[1..]));
    }
  }

  /** A start: the proxy as in SystemTheorems, an untouched predictor, idle workers. */
  ghost predicate Initial(s: State) {
    T.Initial(s.sys) && s.pre == Pre.Start() && s.told == map[] && s.working == map[]
  }

  lemma InitialHasInv(cfg: Config, s: State)
    requires Initial(s)
    ensures Inv(cfg, s)
  {
    T.InitialHasInv(s.sys);
    Pre.StartOk(cfg.prefetch);
  }

  lemma FinishedIsTheRange(s: S.State, actions: seq<S.Action>, u: S.State, t: S.TaskId)
    requires T.Initial(s) && S.Inv(s) && T.CanRun(s, actions) && T.Run(s, actions) == u
    requires t in u.tasks && u.tasks[t].Handler? && u.tasks[t].phase.Finished?
    ensures IsWholeRange(s, u.tasks[t])
  {
    T.EveryResponseIsTheRange(s, actions, t);
  }

  predicate IsWholeRange(s: S.State, task: S.Task) {
    && task.Handler? && task.key in s.sf.objects && task.start <= task.end < |s.sf.objects[task.key]|
    && task.body == s.sf.objects[task.key][task.start..task.end + 1]
  }

  /** With its predictor, too, the proxy's completed responses are the ranges asked for. */
  lemma ResponsesAreTheRanges(cfg: Config, s: State, moves: seq<Move>, t: S.TaskId)
    requires Initial(s) && Inv(cfg, s) && CanRun(cfg, s, moves)
    requires var u := Run(cfg, s, moves).sys; t in u.tasks && u.tasks[t].Handler? && u.tasks[t].phase.Finished?
    ensures IsWholeRange(s.sys, Run(cfg, s, moves).sys.tasks[t])
  {
    RunsProxy(cfg, s, moves);
    FinishedIsTheRange(s.sys, ProxyActions(cfg, s, moves), Run(cfg, s, moves).sys, t);
  }

  /** Every job of the workers is for a chunk 1 to lookAhead after a read of the proxy's own
      that ended a streak. */
  lemma JobsFollowStreaks(cfg: Config, s: State, moves: seq<Move>, job: Pre.Job)
    requires Initial(s) && Inv(cfg, s) && CanRun(cfg, s, moves) && job in Run(cfg, s, moves).pre.accepted
    ensures var u := Run(cfg, s, moves).pre;
            exists i, d: nat | 0 <= i < |u.log| && 1 <= d <= cfg.prefetch.lookAhead ::
              Pre.FollowsStreak(cfg.prefetch, u.log, job, i, d)
  {
    RunsPrefetch(cfg, s, moves);
    Pre.EveryJobFollowsAStreak(cfg.prefetch, PrefetchActions(cfg, s, moves), job);
  }

  /** All that the predictor is ever told of is served reads: every read in its log is of a
      chunk that some handler of that object has resolved for the range it was asked for. */
  lemma EveryReadWasServed(cfg: Config, s: State, moves: seq<Move>, e: Pre.Event)
    requires Initial(s) && Inv(cfg, s) && CanRun(cfg, s, moves) && e in Run(cfg, s, moves).pre.log
    ensures e.ReadAt?
    ensures var tasks := Run(cfg, s, moves).sys.tasks;
            exists t | t in tasks && tasks[t].Handler? :: ServedRead(tasks[t], e)
  {
    var u := Run(cfg, s, moves);
    var t :| ToldBy(u.sys.tasks, u.told, e, t);
    assert S.TaskOk(u.sys, t);
    assert ServedRead(u.sys.tasks[t], e);
  }

  predicate ServedRead(task: S.Task, e: Pre.Event)
    requires task.Handler? && e.ReadAt?
  {
    && task.key == e.key
    && task.start / 4194304 <= e.read.chunk <= task.end / 4194304
    && e.read.chunk < task.start / 4194304 + |task.chunks|
  }

  /** What a busy worker works on is its job. */
  lemma WorkersDoTheirJobs(cfg: Config, s: State, moves: seq<Move>, worker: nat)
    requires Initial(s) && Inv(cfg, s) && CanRun(cfg, s, moves) && worker in Run(cfg, s, moves).pre.running
    ensures var u := Run(cfg, s, moves);
            && worker < cfg.workers && worker in u.working && u.working[worker] in u.sys.tasks
            && var (task, job) := (u.sys.tasks[u.working[worker]], u.pre.running[worker]);
               task.Worker? && task.job.objectKey == job.objectKey && task.job.chunkIndex == job.chunkIndex
  {
    var u := Run(cfg, s, moves);
    assert worker in u.working.Keys;
  }
}
