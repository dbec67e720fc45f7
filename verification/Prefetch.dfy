/** Predictor, bounded queue and workers as one labelled transition system: reads of any
    objects, sends to the queue, workers and evictions of tracker state interleave arbitrarily. */
module Prefetch {
  import opened Basics
  import opened Fnv
  import P = Predictor

  datatype Config = Config(predictor: P.Config, queueDepth: nat, lookAhead: nat)

  datatype Job = Job(objectKey: ObjectKey, chunkIndex: uint64)

  // ---------------------------------------------------------------- the queue

  // queued and dropped are the counters of the send statement.
  datatype Queue = Queue(jobs: seq<Job>, queued: nat, dropped: nat)

  /** A send that does not block: the job is queued if there is room and dropped otherwise. */
  function Offer(q: Queue, depth: nat, job: Job): Queue {
    if |q.jobs| < depth then q.(jobs := q.jobs + [job], queued := q.queued + 1)
    else q.(dropped := q.dropped + 1)
  }

  /** The chunk that is d after c, on 64-bit words. */
  function Ahead(c: uint64, d: nat): uint64 { (c + d) % TWO_64 }

  /** Schedule: the first n of the look-ahead jobs from chunk start on are offered. */
  function Offers(q: Queue, depth: nat, key: ObjectKey, start: uint64, n: nat): Queue {
    if n == 0 then q else Offer(Offers(q, depth, key, start, n - 1), depth, Job(key, Ahead(start, n - 1)))
  }

  /** What n offers from chunk start on do: as many jobs as there is room for are queued behind
      the others, the i-th for the i-th chunk from start, and the rest are dropped. */
  ghost predicate Split(q: Queue, depth: nat, key: ObjectKey, start: nat, n: nat, q': Queue)
    requires |q.jobs| <= depth
  {
    var room := Min(n, depth - |q.jobs|);
    && |q'.jobs| == |q.jobs| + room && q'.jobs[..|q.jobs|] == q.jobs
    && (forall p | |q.jobs| <= p < |q'.jobs| ::
          q'.jobs[p] == Job(key, (start + (p - |q.jobs|)) % 0x1_0000_0000_0000_0000))
    && q'.queued == q.queued + room && q'.dropped == q.dropped + (n - room)
  }

  lemma SplitOnce(q: Queue, depth: nat, key: ObjectKey, start: nat, n: nat, q': Queue)
    requires |q.jobs| <= depth && Split(q, depth, key, start, n, q')
    ensures Split(q, depth, key, start, n + 1, Offer(q', depth, Job(key, (start + n) % 0x1_0000_0000_0000_0000)))
  {
  }

  /** One undisturbed Schedule splits the look-ahead: the nearest chunks are queued, all others
      dropped. */
  lemma {:induction false} ScheduleSplits(q: Queue, depth: nat, key: ObjectKey, start: uint64, n: nat)
    requires |q.jobs| <= depth
    ensures Split(q, depth, key, start, n, Offers(q, depth, key, start, n))
  {
    if n > 0 {
      ScheduleSplits(q, depth, key, start, n - 1);
      SplitOnce(q, depth, key, start, n - 1, Offers(q, depth, key, start, n - 1));
    }
  }

  /** After a read of chunk c, whose successor wraps around on 64-bit words. */
  lemma SplitAfterRead(q: Queue, depth: nat, key: ObjectKey, c: uint64, n: nat)
    requires |q.jobs| <= depth
    ensures Split(q, depth, key, c + 1, n, Offers(q, depth, key, P.Succ(c), n))
  {
    ScheduleSplits(q, depth, key, P.Succ(c), n);
    var q' := Offers(q, depth, key, P.Succ(c), n);
    forall p | |q.jobs| <= p < |q'.jobs|
      ensures q'.jobs[p] == Job(key, (c + 1 + (p - |q.jobs|)) % 0x1_0000_0000_0000_0000) {
      WrapsOnce(c, p - |q.jobs|);
    }
  }

  lemma WrapsOnce(c: nat, i: nat)
    ensures ((c + 1) % TWO_64 + i) % TWO_64 == (c + 1 + i) % TWO_64
  {
  }

  // ---------------------------------------------------------------- the system

  datatype Event = ReadAt(key: ObjectKey, read: P.Read) | Forgotten(key: ObjectKey)

  // A Schedule: a read of chunk c triggered it, next of its jobs were offered so far.
  datatype Sender = Sender(key: ObjectKey, c: uint64, next: nat)

  datatype Outcome = Skipped | Failed | Completed

  // senders holds every Schedule there was, the finished ones too. log and accepted are history:
  // what happened to the tracker, and the jobs ever queued.
  datatype State = State(states: map<ObjectKey, P.ReadState>, senders: seq<Sender>, queue: Queue,
                         running: map<nat, Job>, skipped: nat, failed: nat, completed: nat,
                         log: seq<Event>, accepted: seq<Job>)

  datatype Action =
    | Record(key: ObjectKey, read: P.Read)
    | Forget(key: ObjectKey)
    | Send(id: nat)                     // Schedule id offers its next job
    | Take(w: nat)
    | Finish(w: nat, outcome: Outcome)

  /** The job that the Schedule offers next. */
  function JobOf(x: Sender): Job {
    Job(x.key, Ahead(P.Succ(x.c), x.next))
  }

  function Tracked(s: State, key: ObjectKey): Option<P.ReadState> {
    if key in s.states then Some(s.states[key]) else None
  }

  predicate Enabled(cfg: Config, s: State, a: Action) {
    match a
    case Record(key, read) => true
    case Forget(key) => true
    case Send(id) => id < |s.senders| && s.senders[id].next < cfg.lookAhead
    case Take(w) => w !in s.running && s.queue.jobs != []
    case Finish(w, outcome) => w in s.running
  }

  function Step(cfg: Config, s: State, a: Action): State
    requires Enabled(cfg, s, a)
  {
    match a
    case Record(key, read) =>
      var s' := s.(states := s.states[key := P.Next(Tracked(s, key), read)], log := s.log + [ReadAt(key, read)]);
      if P.Triggers(cfg.predictor, Tracked(s, key), read)
      then s'.(senders := s.senders + [Sender(key, read.chunk, 0)]) else s'
    case Forget(key) => s.(states := s.states - {key}, log := s.log + [Forgotten(key)])
    case Send(id) =>
      var (x, queue') := (s.senders[id], Offer(s.queue, cfg.queueDepth, JobOf(s.senders[id])));
      s.(senders := s.senders[id := x.(next := x.next + 1)], queue := queue',
         accepted := if queue'.jobs == s.queue.jobs then s.accepted else s.accepted + [JobOf(x)])
    case Take(w) =>
      s.(running := s.running[w := s.queue.jobs[0]], queue := s.queue.(jobs := s.queue.jobs[1..]))
    case Finish(w, outcome) =>
      var s' := s.(running := s.running - {w});
      match outcome
      case Skipped => s'.(skipped := s.skipped + 1)
      case Failed => s'.(failed := s.failed + 1)
      case Completed => s'.(completed := s.completed + 1)
  }

  /** Schedule id offers n jobs, and nothing else happens. */
  function SendsOf(id: nat, n: nat): seq<Action> {
    if n == 0 then [] else [Send(id)] + SendsOf(id, n - 1)
  }

  // ---------------------------------------------------------------- invariants

  /** The reads of one object since its tracker state was last evicted. */
  function History(log: seq<Event>, key: ObjectKey): seq<P.Read> {
    if log == [] then []
    else Remembered(History(log[..|log| - 1], key), log[|log| - 1], key)
  }

  function Remembered(h: seq<P.Read>, e: Event, key: ObjectKey): seq<P.Read> {
    if e.key != key then h else if e.ReadAt? then h + [e.read] else []
  }

  /** Event i is a read of chunk c of the object, and its Record started a prefetch. */
  predicate StartedAt(cfg: Config, log: seq<Event>, key: ObjectKey, c: uint64, i: nat)
    requires i < |log|
  {
    && log[i].ReadAt? && log[i].key == key && log[i].read.chunk == c
    && P.Arms(cfg.predictor, History(log[..i + 1], key))
  }

  ghost predicate Started(cfg: Config, log: seq<Event>, key: ObjectKey, c: uint64) {
    exists i | 0 <= i < |log| :: StartedAt(cfg, log, key, c, i)
  }

  /** The job is for one of the lookAhead chunks after a read that started a prefetch. */
  ghost predicate Justified(cfg: Config, log: seq<Event>, job: Job) {
    exists c: uint64, d: nat | 1 <= d <= cfg.lookAhead ::
      job.chunkIndex == Ahead(c, d) && Started(cfg, log, job.objectKey, c)
  }

  /** How many events are reads that started a prefetch. */
  function Starts(cfg: Config, log: seq<Event>): nat {
    if log == [] then 0 else Starts(cfg, log[..|log| - 1]) + if Starting(cfg, log) then 1 else 0
  }

  predicate Starting(cfg: Config, log: seq<Event>) {
    && log != [] && var e := log[|log| - 1];
    e.ReadAt? && StartedAt(cfg, log, e.key, e.read.chunk, |log| - 1)
  }

  /** The jobs that the Schedules have offered, and those that they have yet to offer. */
  function Offered(senders: seq<Sender>): nat {
    if senders == [] then 0 else Offered(senders[..|senders| - 1]) + senders[|senders| - 1].next
  }

  function Owed(lookAhead: nat, senders: seq<Sender>): int {
    if senders == [] then 0
    else Owed(lookAhead, senders[..|senders| - 1]) + (lookAhead - senders[|senders| - 1].next)
  }

  ghost predicate TrackerOk(s: State) {
    forall key :: Tracked(s, key) == P.StateAfter(History(s.log, key))
  }

  ghost predicate SendersOk(cfg: Config, s: State) {
    && |s.senders| == Starts(cfg, s.log)
    && forall x | x in s.senders :: x.next <= cfg.lookAhead && Started(cfg, s.log, x.key, x.c)
  }

  ghost predicate JobsOk(cfg: Config, s: State) {
    && (forall j | j in s.accepted :: Justified(cfg, s.log, j))
    && (forall j | j in s.queue.jobs :: j in s.accepted)
    && (forall w | w in s.running :: s.running[w] in s.accepted)
  }

  ghost predicate CountsOk(cfg: Config, s: State) {
    && |s.queue.jobs| <= cfg.queueDepth
    && s.queue.queued == |s.accepted|
    && s.queue.queued + s.queue.dropped == Offered(s.senders)
    && s.queue.queued == |s.queue.jobs| + |s.running| + s.skipped + s.failed + s.completed
  }

  ghost predicate Inv(cfg: Config, s: State) {
    TrackerOk(s) && SendersOk(cfg, s) && JobsOk(cfg, s) && CountsOk(cfg, s)
  }

  lemma HistorySnoc(log: seq<Event>, e: Event, key: ObjectKey)
    ensures History(log + [e], key) == Remembered(History(log, key), e, key)
  {
    var all := log + [e];
    assert all[..|all| - 1] == log && all[|all| - 1] == e;
  }

  lemma StartedStays(cfg: Config, log: seq<Event>, e: Event, key: ObjectKey, c: uint64)
    requires Started(cfg, log, key, c)
    ensures Started(cfg, log + [e], key, c)
  {
    var i :| 0 <= i < |log| && StartedAt(cfg, log, key, c, i);
    assert (log + [e])[..i + 1] == log[..i + 1];
    assert StartedAt(cfg, log + [e], key, c, i);
  }

  lemma JustifiedStays(cfg: Config, log: seq<Event>, e: Event, job: Job)
    requires Justified(cfg, log, job)
    ensures Justified(cfg, log + [e], job)
  {
    var c: uint64, d: nat :|
      1 <= d <= cfg.lookAhead && job.chunkIndex == Ahead(c, d) && Started(cfg, log, job.objectKey, c);
    StartedStays(cfg, log, e, job.objectKey, c);
  }

  lemma TrackerSnoc(s: State, u: State, e: Event)
    requires TrackerOk(s) && u.log == s.log + [e]
    requires e.ReadAt? ==> u.states == s.states[e.key := P.Next(Tracked(s, e.key), e.read)]
    requires e.Forgotten? ==> u.states == s.states - {e.key}
    ensures TrackerOk(u)
  {
    forall key ensures Tracked(u, key) == P.StateAfter(History(u.log, key)) {
      HistorySnoc(s.log, e, key);
      if e.ReadAt? && key == e.key {
        var h := History(s.log, key) + [e.read];
        assert h[..|h| - 1] == History(s.log, key);
      }
    }
  }

  lemma ReadStarts(cfg: Config, s: State, key: ObjectKey, read: P.Read)
    requires TrackerOk(s)
    ensures var (all, starts) := (s.log + [ReadAt(key, read)], P.Triggers(cfg.predictor, Tracked(s, key), read));
            && Starts(cfg, all) == Starts(cfg, s.log) + (if starts then 1 else 0)
            && (starts ==> Started(cfg, all, key, read.chunk))
  {
    var e := ReadAt(key, read);
    var all := s.log + [e];
    HistorySnoc(s.log, e, key);
    var h := History(s.log, key) + [read];
    assert h[..|h| - 1] == History(s.log, key) && all[..|s.log| + 1] == all;
    assert all[..|all| - 1] == s.log && all[|all| - 1] == e;
    if P.Triggers(cfg.predictor, Tracked(s, key), read) { assert StartedAt(cfg, all, key, read.chunk, |s.log|); }
  }

  lemma LogGrows(cfg: Config, s: State, u: State, e: Event)
    requires SendersOk(cfg, s) && JobsOk(cfg, s) && u.log == s.log + [e]
    requires u.accepted == s.accepted && u.queue == s.queue && u.running == s.running
    ensures JobsOk(cfg, u)
    ensures forall x | x in s.senders :: Started(cfg, u.log, x.key, x.c)
  {
    forall j | j in u.accepted ensures Justified(cfg, u.log, j) { JustifiedStays(cfg, s.log, e, j); }
    forall x | x in s.senders ensures Started(cfg, u.log, x.key, x.c) {
      StartedStays(cfg, s.log, e, x.key, x.c);
    }
  }

  lemma OfferedSnoc(senders: seq<Sender>, x: Sender)
    ensures Offered(senders + [x]) == Offered(senders) + x.next
  {
    assert (senders + [x])[..|senders|] == senders;
  }

  lemma {:induction false} OfferedUpdate(senders: seq<Sender>, id: nat, x: Sender)
    requires id < |senders|
    ensures Offered(senders[id := x]) == Offered(senders) + x.next - senders[id].next
  {
    var last := |senders| - 1;
    if id < last {
      assert senders[id := x][..last] == senders[..last][id := x];
      OfferedUpdate(senders[..last], id, x);
    } else {
      assert senders[id := x][..last] == senders[..last];
    }
  }

  lemma {:induction false} OfferedOrOwed(n: nat, senders: seq<Sender>)
    ensures Offered(senders) + Owed(n, senders) == n * |senders|
  {
    if senders != [] {
      OfferedOrOwed(n, senders[..|senders| - 1]);
      assert n * |senders| == n * (|senders| - 1) + n;
    }
  }

  lemma RecordKeepsSenders(cfg: Config, s: State, key: ObjectKey, read: P.Read)
    requires Inv(cfg, s)
    ensures SendersOk(cfg, Step(cfg, s, Record(key, read))) && JobsOk(cfg, Step(cfg, s, Record(key, read)))
  {
    LogGrows(cfg, s, Step(cfg, s, Record(key, read)), ReadAt(key, read));
    ReadStarts(cfg, s, key, read);
  }

  lemma RecordKeepsCounts(cfg: Config, s: State, key: ObjectKey, read: P.Read)
    requires CountsOk(cfg, s)
    ensures CountsOk(cfg, Step(cfg, s, Record(key, read)))
  {
    OfferedSnoc(s.senders, Sender(key, read.chunk, 0));
  }

  lemma RecordKeepsTracker(cfg: Config, s: State, key: ObjectKey, read: P.Read)
    requires TrackerOk(s)
    ensures TrackerOk(Step(cfg, s, Record(key, read)))
  {
    TrackerSnoc(s, Step(cfg, s, Record(key, read)), ReadAt(key, read));
  }

  lemma RecordKeepsInv(cfg: Config, s: State, key: ObjectKey, read: P.Read)
    requires Inv(cfg, s)
    ensures Inv(cfg, Step(cfg, s, Record(key, read)))
  {
    RecordKeepsSenders(cfg, s, key, read);
    RecordKeepsTracker(cfg, s, key, read);
    RecordKeepsCounts(cfg, s, key, read);
  }

  lemma ForgetKeepsInv(cfg: Config, s: State, key: ObjectKey)
    requires Inv(cfg, s)
    ensures Inv(cfg, Step(cfg, s, Forget(key)))
  {
    var u := Step(cfg, s, Forget(key));
    TrackerSnoc(s, u, Forgotten(key));
    LogGrows(cfg, s, u, Forgotten(key));
    assert u.log[..|u.log| - 1] == s.log;
  }

  lemma AheadOfNext(c: uint64, next: nat)
    ensures Ahead(P.Succ(c), next) == Ahead(c, next + 1) == (c + 1 + next) % 0x1_0000_0000_0000_0000
  {
  }

  lemma SendJustified(cfg: Config, s: State, id: nat)
    requires SendersOk(cfg, s) && Enabled(cfg, s, Send(id))
    ensures Justified(cfg, s.log, JobOf(s.senders[id]))
  {
    var Sender(key, c, next) := s.senders[id];
    AheadOfNext(c, next);
    assert s.senders[id] in s.senders;
    assert Job(key, Ahead(P.Succ(c), next)).chunkIndex == Ahead(c, next + 1) && Started(cfg, s.log, key, c);
  }

  lemma AcceptKeepsJobs(cfg: Config, s: State, u: State, job: Job)
    requires JobsOk(cfg, s) && Justified(cfg, s.log, job) && u.log == s.log && u.running == s.running
    requires u.accepted == s.accepted + [job] && u.queue.jobs == s.queue.jobs + [job]
    ensures JobsOk(cfg, u)
  {
    forall j | j in u.accepted ensures Justified(cfg, u.log, j) { assert j in s.accepted || j == job; }
  }

  lemma SendKeepsSenders(cfg: Config, s: State, u: State, id: nat)
    requires SendersOk(cfg, s) && Enabled(cfg, s, Send(id)) && u.log == s.log
    requires u.senders == s.senders[id := s.senders[id].(next := s.senders[id].next + 1)]
    ensures SendersOk(cfg, u)
  {
    assert s.senders[id] in s.senders;
    forall x | x in u.senders ensures x.next <= cfg.lookAhead && Started(cfg, u.log, x.key, x.c) {
      assert x in s.senders || x == u.senders[id];
    }
  }

  /** Schedule id offers job: the only things that move are its counter, the queue and the
      history. */
  ghost predicate SentBy(cfg: Config, s: State, u: State, id: nat, job: Job) {
    && id < |s.senders| && u.senders == s.senders[id := s.senders[id].(next := s.senders[id].next + 1)]
    && u.queue == Offer(s.queue, cfg.queueDepth, job)
    && u.accepted == (if |s.queue.jobs| < cfg.queueDepth then s.accepted + [job] else s.accepted)
    && u.states == s.states && u.log == s.log && u.running == s.running
    && u.skipped == s.skipped && u.failed == s.failed && u.completed == s.completed
  }

  lemma SendEffect(cfg: Config, s: State, id: nat, job: Job)
    requires Enabled(cfg, s, Send(id)) && job == JobOf(s.senders[id])
    ensures SentBy(cfg, s, Step(cfg, s, Send(id)), id, job)
  {
    assert |s.queue.jobs + [job]| != |s.queue.jobs|;
  }

  lemma SendKeepsCounts(cfg: Config, s: State, u: State, id: nat, job: Job)
    requires CountsOk(cfg, s) && SentBy(cfg, s, u, id, job)
    ensures CountsOk(cfg, u)
  {
    OfferedUpdate(s.senders, id, u.senders[id]);
  }

  lemma SendKeepsTracker(cfg: Config, s: State, u: State, id: nat, job: Job)
    requires TrackerOk(s) && SentBy(cfg, s, u, id, job)
    ensures TrackerOk(u)
  {
    forall key ensures Tracked(u, key) == P.StateAfter(History(u.log, key)) {
      assert Tracked(u, key) == Tracked(s, key);
    }
  }

  lemma SendKeepsInv(cfg: Config, s: State, id: nat)
    requires Inv(cfg, s) && Enabled(cfg, s, Send(id))
    ensures Inv(cfg, Step(cfg, s, Send(id)))
  {
    var (u, job) := (Step(cfg, s, Send(id)), JobOf(s.senders[id]));
    SendEffect(cfg, s, id, job);
    SendJustified(cfg, s, id);
    SendKeepsSenders(cfg, s, u, id);
    SendKeepsCounts(cfg, s, u, id, job);
    SendKeepsTracker(cfg, s, u, id, job);
    if |s.queue.jobs| < cfg.queueDepth { AcceptKeepsJobs(cfg, s, u, job); }
  }

  lemma TakeKeepsInv(cfg: Config, s: State, w: nat)
    requires Inv(cfg, s) && Enabled(cfg, s, Take(w))
    ensures Inv(cfg, Step(cfg, s, Take(w)))
  {
    var u := Step(cfg, s, Take(w));
    assert s.queue.jobs[0] in s.queue.jobs;
    assert forall j | j in u.queue.jobs :: j in s.queue.jobs;
    assert |u.running| == |s.running| + 1;
  }

  lemma OneLess<K, V>(m: map<K, V>, k: K)
    requires k in m
    ensures |m - {k}| == |m| - 1
  {
    assert m == (m - {k})[k := m[k]];
  }

  /** Neither tracker nor senders move, and jobs only pass from the queue to the workers. */
  lemma WorkKeeps(cfg: Config, s: State, u: State)
    requires TrackerOk(s) && SendersOk(cfg, s) && JobsOk(cfg, s)
    requires u.states == s.states && u.log == s.log && u.senders == s.senders && u.accepted == s.accepted
    requires forall j | j in u.queue.jobs :: j in s.queue.jobs
    requires forall w | w in u.running :: u.running[w] in s.accepted
    ensures TrackerOk(u) && SendersOk(cfg, u) && JobsOk(cfg, u)
  {
    forall key ensures Tracked(u, key) == P.StateAfter(History(u.log, key)) {
      assert Tracked(u, key) == Tracked(s, key);
    }
  }

  lemma FinishEffect(cfg: Config, s: State, w: nat, outcome: Outcome)
    requires Enabled(cfg, s, Finish(w, outcome))
    ensures var u := Step(cfg, s, Finish(w, outcome));
            && u.states == s.states && u.log == s.log && u.senders == s.senders && u.accepted == s.accepted
            && u.queue == s.queue && u.running == s.running - {w}
            && u.skipped + u.failed + u.completed == s.skipped + s.failed + s.completed + 1
  {
  }

  lemma FinishKeepsInv(cfg: Config, s: State, u: State, w: nat)
    requires Inv(cfg, s) && w in s.running && u.running == s.running - {w}
    requires u.states == s.states && u.log == s.log && u.senders == s.senders && u.accepted == s.accepted
    requires u.queue == s.queue && u.skipped + u.failed + u.completed == s.skipped + s.failed + s.completed + 1
    ensures Inv(cfg, u)
  {
    OneLess(s.running, w);
    WorkKeeps(cfg, s, u);
  }

  lemma StepKeepsInv(cfg: Config, s: State, a: Action)
    requires Inv(cfg, s) && Enabled(cfg, s, a)
    ensures Inv(cfg, Step(cfg, s, a))
  {
    match a
    case Record(key, read) => RecordKeepsInv(cfg, s, key, read);
    case Forget(key) => ForgetKeepsInv(cfg, s, key);
    case Send(id) => SendKeepsInv(cfg, s, id);
    case Take(w) => TakeKeepsInv(cfg, s, w);
    case Finish(w, outcome) =>
      FinishEffect(cfg, s, w, outcome);
      FinishKeepsInv(cfg, s, Step(cfg, s, a), w);
  }

  // ---------------------------------------------------------------- runs

  predicate CanRun(cfg: Config, s: State, actions: seq<Action>)
    decreases |actions|
  {
    actions != [] ==> Enabled(cfg, s, actions[0]) && CanRun(cfg, Step(cfg, s, actions[0]), actions[1..])
  }

  function Run(cfg: Config, s: State, actions: seq<Action>): State
    requires CanRun(cfg, s, actions)
    decreases |actions|
  {
    if actions == [] then s else Run(cfg, Step(cfg, s, actions[0]), actions[1..])
  }

  function Start(): State {
    State(map[], [], Queue([], 0, 0), map[], 0, 0, 0, [], [])
  }

  lemma {:induction false} RunKeepsInv(cfg: Config, s: State, actions: seq<Action>)
    requires Inv(cfg, s) && CanRun(cfg, s, actions)
    ensures Inv(cfg, Run(cfg, s, actions))
    decreases |actions|
  {
    if actions != [] {
      StepKeepsInv(cfg, s, actions[0]);
      RunKeepsInv(cfg, Step(cfg, s, actions[0]), actions[1..]);
    }
  }

  lemma AheadOfAhead(start: uint64, n: nat)
    ensures ((start + 1) % TWO_64 + n) % TWO_64 == (start + (n + 1)) % TWO_64
  {
  }

  lemma {:induction false} OffersFirst(q: Queue, depth: nat, key: ObjectKey, start: uint64, n: nat)
    ensures Offers(q, depth, key, start, n + 1) ==
            Offers(Offer(q, depth, Job(key, start)), depth, key, (start + 1) % TWO_64, n)
  {
    if n == 0 {
      assert Offers(q, depth, key, start, 0) == q;
      assert Ahead(start, 0) == start;
    } else {
      OffersFirst(q, depth, key, start, n - 1);
      AheadOfAhead(start, n - 1);
    }
  }

  lemma SendThenMore(cfg: Config, s: State, id: nat, n: nat)
    requires Enabled(cfg, s, Send(id)) && CanRun(cfg, Step(cfg, s, Send(id)), SendsOf(id, n))
    ensures CanRun(cfg, s, SendsOf(id, n + 1))
    ensures Run(cfg, s, SendsOf(id, n + 1)) == Run(cfg, Step(cfg, s, Send(id)), SendsOf(id, n))
  {
    assert SendsOf(id, n + 1)[0] == Send(id) && SendsOf(id, n + 1)[1..] == SendsOf(id, n);
  }

  /** A Schedule that was triggered by a read of chunk c, has offered some of its jobs and is
      left alone for its next n: the queue becomes what Offers says, so Schedule the method,
      and ScheduleSplits, are about these sends. */
  lemma {:induction false} UndisturbedSends(cfg: Config, s: State, id: nat, n: nat)
    requires id < |s.senders| && s.senders[id].next + n <= cfg.lookAhead
    ensures CanRun(cfg, s, SendsOf(id, n))
    ensures var (x, u) := (s.senders[id], Run(cfg, s, SendsOf(id, n)));
            && u.senders == s.senders[id := x.(next := x.next + n)] && u.log == s.log
            && u.queue == Offers(s.queue, cfg.queueDepth, x.key, (x.c + 1 + x.next) % 0x1_0000_0000_0000_0000, n)
    decreases n
  {
    if n > 0 {
      var x := s.senders[id];
      var start := (x.c + 1 + x.next) % TWO_64;
      OneSend(cfg, s, id, x, start);
      UndisturbedSends(cfg, Step(cfg, s, Send(id)), id, n - 1);
      SendThenMore(cfg, s, id, n - 1);
      NextStart(x.c, x.next);
      OffersFirst(s.queue, cfg.queueDepth, x.key, start, n - 1);
    }
  }

  lemma OneSend(cfg: Config, s: State, id: nat, x: Sender, start: uint64)
    requires Enabled(cfg, s, Send(id)) && x == s.senders[id] && start == (x.c + 1 + x.next) % TWO_64
    ensures var u := Step(cfg, s, Send(id));
            && u.senders == s.senders[id := x.(next := x.next + 1)] && u.log == s.log
            && u.queue == Offer(s.queue, cfg.queueDepth, Job(x.key, start))
  {
    AheadOfNext(x.c, x.next);
    SendEffect(cfg, s, id, Job(x.key, start));
  }

  lemma NextStart(c: uint64, next: nat)
    ensures (c + 1 + (next + 1)) % TWO_64 == ((c + 1 + next) % TWO_64 + 1) % TWO_64
  {
  }

  function Sends(actions: seq<Action>): nat {
    if actions == [] then 0 else Sends(actions[1..]) + if actions[0].Send? then 1 else 0
  }

  lemma {:induction false} EachSendCounts(cfg: Config, s: State, actions: seq<Action>)
    requires CanRun(cfg, s, actions)
    ensures var u := Run(cfg, s, actions);
            u.queue.queued + u.queue.dropped == s.queue.queued + s.queue.dropped + Sends(actions)
    decreases |actions|
  {
    if actions != [] { EachSendCounts(cfg, Step(cfg, s, actions[0]), actions[1..]); }
  }

  /** On every run: the queue never exceeds its depth; every send is counted as queued or
      dropped; with what the Schedules under way still owe, the sends are lookAhead for each
      read that started a prefetch; and every queued job waits, is being worked on, or has been
      skipped, has failed or completed. */
  lemma JobsAreConserved(cfg: Config, actions: seq<Action>)
    requires CanRun(cfg, Start(), actions)
    ensures var u := Run(cfg, Start(), actions);
            && |u.queue.jobs| <= cfg.queueDepth
            && u.queue.queued + u.queue.dropped == Sends(actions)
            && Sends(actions) + Owed(cfg.lookAhead, u.senders) == cfg.lookAhead * Starts(cfg, u.log)
            && u.queue.queued == |u.queue.jobs| + |u.running| + u.skipped + u.failed + u.completed
  {
    StartOk(cfg);
    RunKeepsInv(cfg, Start(), actions);
    EachSendCounts(cfg, Start(), actions);
    OfferedOrOwed(cfg.lookAhead, Run(cfg, Start(), actions).senders);
  }

  lemma StartOk(cfg: Config)
    ensures Inv(cfg, Start())
  {
  }

  /** On every run, every job ever queued is for a chunk 1 to lookAhead after some read, at
      which the last streakThreshold chunks of that object, repeats collapsed, were consecutive
      and ended with the chunk that was read, and which started a prefetch. */
  lemma EveryJobFollowsAStreak(cfg: Config, actions: seq<Action>, job: Job)
    requires CanRun(cfg, Start(), actions) && job in Run(cfg, Start(), actions).accepted
    ensures exists i, d: nat | 0 <= i < |Run(cfg, Start(), actions).log| && 1 <= d <= cfg.lookAhead ::
              FollowsStreak(cfg, Run(cfg, Start(), actions).log, job, i, d)
  {
    var u := Run(cfg, Start(), actions);
    StartOk(cfg);
    RunKeepsInv(cfg, Start(), actions);
    assert Justified(cfg, u.log, job);
    var i, d := FollowsSome(cfg, u.log, job);
  }

  lemma FollowsSome(cfg: Config, log: seq<Event>, job: Job) returns (i: nat, d: nat)
    requires Justified(cfg, log, job)
    ensures i < |log| && 1 <= d <= cfg.lookAhead && FollowsStreak(cfg, log, job, i, d)
  {
    var c;
    c, i, d := SomeStart(cfg, log, job);
    StartedMeans(cfg, log, job.objectKey, c, i);
  }

  lemma SomeStart(cfg: Config, log: seq<Event>, job: Job) returns (c: uint64, i: nat, d: nat)
    requires Justified(cfg, log, job)
    ensures 1 <= d <= cfg.lookAhead && job.chunkIndex == (c + d) % 0x1_0000_0000_0000_0000
    ensures i < |log| && StartedAt(cfg, log, job.objectKey, c, i)
  {
    var x: uint64, n: nat :|
      1 <= n <= cfg.lookAhead && job.chunkIndex == Ahead(x, n) && Started(cfg, log, job.objectKey, x);
    var e :| 0 <= e < |log| && StartedAt(cfg, log, job.objectKey, x, e);
    c, i, d := x, e, n;
  }

  /** Event i reads the chunk d before the job's and starts a prefetch (Predictor.ArmsIff says
      exactly when), and the chunks before it were consecutive. */
  ghost predicate FollowsStreak(cfg: Config, log: seq<Event>, job: Job, i: nat, d: nat)
    requires i < |log|
  {
    && log[i].ReadAt? && StartedAt(cfg, log, job.objectKey, log[i].read.chunk, i)
    && job.chunkIndex == (log[i].read.chunk + d) % 0x1_0000_0000_0000_0000
    && EndsInStreak(cfg, P.Collapsed(History(log[..i + 1], job.objectKey)), log[i].read.chunk)
  }

  ghost predicate EndsInStreak(cfg: Config, c: seq<P.Read>, last: uint64) {
    exists n: nat | n <= |c| :: n >= cfg.predictor.streakThreshold && P.EndsConsecutively(c, n, last)
  }

  lemma StartedMeans(cfg: Config, log: seq<Event>, key: ObjectKey, c: uint64, i: nat)
    requires i < |log| && StartedAt(cfg, log, key, c, i)
    ensures EndsInStreak(cfg, P.Collapsed(History(log[..i + 1], key)), c)
  {
    var h := History(log[..i + 1], key);
    P.ArmsMeans(cfg.predictor, h);
    assert log[..i + 1] == log[..i] + [log[i]];
    HistorySnoc(log[..i], log[i], key);
  }
}
