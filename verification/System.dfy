/** The whole proxy as one labelled transition system: request handlers and prefetch workers
    go through the hot cache, the cold cache and the shared backend fetch, borrow and return
    pooled buffers, and evicted chunks wait for their background write, all interleaved
    arbitrarily. A handler and a worker are each a task; a task's fetch is its single-flight
    call. */
module System {
  import opened Basics
  import opened HotSpec
  import opened LruSpec
  import opened Fnv
  import opened Assembly
  import opened RangeHeader
  import SF = SingleFlight
  import Env = SingleFlightEnv

  type Addr = SF.Addr
  type TaskId = SF.Caller

  // Where a task is with one chunk, or with the response.
  datatype Phase =
    | Looking                                        // about to ask the hot cache
    | ColdLooking                                    // missed there: about to read the disk
    | NeedBuffer                                     // missed everywhere: about to take a buffer
    | Fetching(buf: Addr)                            // inside FetchChunkShared
    | Storing(data: Addr, held: Option<Addr>)        // about to Put into the hot cache
    | Writing(i: nat)                                // about to write the slice of chunk i
    | Finished
    | Failed

  datatype Task =
    | Handler(header: string, key: ObjectKey, start: nat, end: nat, chunks: seq<Addr>, body: bytes, phase: Phase)
    | Worker(job: ChunkKey, phase: Phase)

  // fetched is history: the chunks some GET returned.
  datatype State = State(sf: SF.State, capacity: int, pool: set<Addr>, hot: Shards<Addr>,
                         cold: map<ChunkKey, bytes>, pending: seq<Entry<Addr>>,
                         tasks: map<TaskId, Task>, fetched: set<ChunkKey>)

  datatype Action =
    | Request(t: TaskId, header: string, key: ObjectKey)
    | Job(t: TaskId, chunk: ChunkKey)
    | Look(t: TaskId)
    | ReadCold(t: TaskId, a: Addr)       // a is the address of the bytes read, if there are any
    | ReadFails(t: TaskId)               // a read error counts as a miss
    | Acquire(t: TaskId, buf: Addr)      // a pooled buffer, or the address of a new one
    | Protocol(step: SF.Action)
    | Return(t: TaskId, a: Addr)         // a is the address of the task's own copy
    | Store(t: TaskId)
    | ColdWrite(i: nat)
    | ColdFail(i: nat)
    | Write(t: TaskId)
    | Disconnect(t: TaskId, n: nat)      // the client goes away, having taken n bytes of the slice

  /** The chunk the task is working on: a handler takes its chunks in order. */
  function Current(task: Task): int {
    match task
    case Handler(_, _, start, _, chunks, _, _) => ChunkOf(start) + |chunks|
    case Worker(job, _) => job.chunkIndex
  }

  predicate WorksOn(task: Task, k: ChunkKey) {
    match task
    case Handler(_, key, _, _, _, _, _) => k.objectKey == key && k.chunkIndex == Current(task)
    case Worker(job, _) => k == job
  }

  function KeyOf(task: Task): ChunkKey
    requires task.Handler? ==> Current(task) < TWO_64
  {
    match task
    case Handler(_, key, _, _, _, _, _) => ChunkKey(key, Current(task))
    case Worker(job, _) => job
  }

  /** The task has the bytes of its chunk: a worker is done, a handler goes on with the next
      chunk or starts to write. */
  function Delivered(task: Task, data: Addr): Task {
    match task
    case Worker(_, _) => At(task, Finished)
    case Handler(_, _, start, end, chunks, _, _) =>
      var chunks' := chunks + [data];
      task.(chunks := chunks',
            phase := if ChunkOf(start) + |chunks'| > ChunkOf(end) then Writing(0) else Looking)
  }

  /** The task in another phase. */
  function At(task: Task, p: Phase): Task {
    match task
    case Worker(job, _) => Worker(job, p)
    case Handler(header, key, start, end, chunks, body, _) => Handler(header, key, start, end, chunks, body, p)
  }

  function SetTask(s: State, t: TaskId, task: Task): State {
    s.(tasks := s.tasks[t := task])
  }

  /** pool.Put: the buffer is free again. */
  function Release(s: State, buf: Addr): State
    requires buf in s.sf.mem
  {
    s.(sf := Env.Hand(s.sf, buf, SF.Free), pool := s.pool + {buf})
  }

  predicate Enabled(s: State, a: Action) {
    match a
    case Request(t, header, key) =>
      t !in s.tasks && key in s.sf.objects && ResolveByteRange(header, |s.sf.objects[key]|).Some?
    case Job(t, chunk) => t !in s.tasks
    case Look(t) => t in s.tasks && s.tasks[t].phase.Looking?
    case ReadCold(t, addr) => t in s.tasks && s.tasks[t].phase.ColdLooking? && addr !in s.sf.mem
    case ReadFails(t) => t in s.tasks && s.tasks[t].phase.ColdLooking?
    case Acquire(t, buf) => t in s.tasks && s.tasks[t].phase.NeedBuffer? && (buf in s.pool || buf !in s.sf.mem)
    case Protocol(step) => SF.Enabled(s.sf, step)
    case Return(t, addr) =>
      && t in s.tasks && s.tasks[t].phase.Fetching?
      && t in s.sf.calls && s.sf.calls[t].phase.Returned? && addr !in s.sf.mem
    case Store(t) => t in s.tasks && s.tasks[t].phase.Storing?
    case ColdWrite(i) => i < |s.pending|
    case ColdFail(i) => i < |s.pending|
    case Write(t) => t in s.tasks && s.tasks[t].Handler? && s.tasks[t].phase.Writing?
    case Disconnect(t, n) => t in s.tasks && s.tasks[t].Handler? && s.tasks[t].phase.Writing?
  }

  // ---------------------------------------------------------------- the steps

  function DoRequest(s: State, t: TaskId, header: string, key: ObjectKey): State
    requires Enabled(s, Request(t, header, key))
  {
    var (start, end) := ResolveByteRange(header, |s.sf.objects[key]|).value;
    ResolvedIsInside(header, |s.sf.objects[key]|);
    SetTask(s, t, Handler(header, key, start, end, [], [], Looking))
  }

  function DoLook(s: State, t: TaskId): State
    requires Inv(s) && Enabled(s, Look(t))
  {
    assert TaskOk(s, t);
    var task := s.tasks[t];
    var k := KeyOf(task);
    if Resident(s.hot, k) then
      var l := ListOf(s.hot, k);
      SetTask(s.(hot := Got(s.hot, k)), t, Delivered(task, l[Find(l, k)].val))
    else
      SetTask(s, t, At(task, if task.Handler? then ColdLooking else NeedBuffer))
  }

  function DoReadCold(s: State, t: TaskId, a: Addr): State
    requires Inv(s) && Enabled(s, ReadCold(t, a))
  {
    assert TaskOk(s, t);
    var task := s.tasks[t];
    var k := KeyOf(task);
    if k in s.cold then
      SetTask(s.(sf := Env.Alloc(s.sf, a, s.cold[k], SF.Data(k))), t, At(task, Storing(a, None)))
    else
      SetTask(s, t, At(task, NeedBuffer))
  }

  /** What the pool makes when it is empty. */
  function NewBuffer(): (b: bytes)
    ensures |b| == CHUNK_SIZE
  {
    seq(CHUNK_SIZE, _ => 0)
  }

  /** pool.Get, and the call of FetchChunkShared with the buffer. */
  function DoAcquire(s: State, t: TaskId, buf: Addr): State
    requires Inv(s) && Enabled(s, Acquire(t, buf))
  {
    assert TaskOk(s, t);
    var task := s.tasks[t];
    var sf' := if buf in s.pool then assert PoolOk(s, buf); Env.Hand(s.sf, buf, SF.Held(t))
               else Env.Alloc(s.sf, buf, NewBuffer(), SF.Held(t));
    SetTask(s.(sf := Env.Begin(sf', t, KeyOf(task), buf), pool := s.pool - {buf}),
            t, At(task, Fetching(buf)))
  }

  /** FetchChunkShared returned: copy the bytes out of the buffer, or fail. A handler that
      joined somebody else's fetch leaves the caching to the leader; a worker does not. */
  function DoReturn(s: State, t: TaskId, a: Addr): State
    requires Inv(s) && Enabled(s, Return(t, a))
  {
    assert TaskOk(s, t) && SF.CallOk(s.sf, t);
    var task := s.tasks[t];
    var buf := task.phase.buf;
    var call := s.sf.calls[t];
    var s' := s.(sf := Env.End(s.sf, t));
    if !call.phase.ok then
      SetTask(Release(s', buf), t, At(task, Failed))
    else
      var owned := s.sf.mem[buf].content[..call.phase.n];
      var s'' := s'.(sf := Env.Alloc(s'.sf, a, owned, SF.Data(call.key)));
      if call.phase.joined && task.Handler? then
        SetTask(Release(s'', buf), t, Delivered(task, a))
      else
        SetTask(s'', t, At(task, Storing(a, Some(buf))))
  }

  /** HotCache.Put: the victims start their background writes; the buffer, if any, goes back. */
  function DoStore(s: State, t: TaskId): State
    requires Inv(s) && Enabled(s, Store(t))
  {
    assert TaskOk(s, t);
    var task := s.tasks[t];
    var Storing(data, held) := task.phase;
    var e := Entry(KeyOf(task), |s.sf.mem[data].content|, data);
    var s' := s.(hot := Stored(s.hot, s.capacity, e), pending := s.pending + Evicted(s.hot, s.capacity, e));
    SetTask(if held.Some? then Release(s', held.value) else s', t, Delivered(task, data))
  }

  function DoColdWrite(s: State, i: nat): State
    requires Inv(s) && Enabled(s, ColdWrite(i))
  {
    var e := s.pending[i];
    assert EntryOk(s.sf, e);
    s.(cold := s.cold[e.key := s.sf.mem[e.val].content], pending := s.pending[..i] + s.pending[i + 1..])
  }

  /** One round of the slice loop, with its early break. */
  function AfterSlice(task: Task, content: bytes): Task
    requires task.Handler? && task.phase.Writing?
  {
    var Handler(header, key, start, end, chunks, body, Writing(i)) := task;
    var (from, to) := Slice(ChunkOf(start) + i, |content|, start, end);
    if from >= to then At(task, Finished)
    else Handler(header, key, start, end, chunks, body + content[from..to], Writing(i + 1))
  }

  function Written(sf: SF.State, task: Task): Task
    requires task.Handler? && task.phase.Writing? && HandlerOk(sf, task)
  {
    var i := task.phase.i;
    if i >= |task.chunks| then At(task, Finished)
    else
      assert IsChunk(sf, task.chunks[i], ChunkKey(task.key, ChunkOf(task.start) + i));
      AfterSlice(task, sf.mem[task.chunks[i]].content)
  }

  /** A write that fails: of the slice only the first n bytes, if it has so many, went out. */
  function BrokenOff(sf: SF.State, task: Task, n: nat): Task
    requires task.Handler? && task.phase.Writing? && HandlerOk(sf, task)
  {
    var written := Written(sf, task).body;
    Handler(task.header, task.key, task.start, task.end, task.chunks, written[..Min(|task.body| + n, |written|)],
            Failed)
  }

  function Step(s: State, a: Action): State
    requires Inv(s) && Enabled(s, a)
  {
    match a
    case Request(t, header, key) => DoRequest(s, t, header, key)
    case Job(t, chunk) => SetTask(s, t, Worker(chunk, Looking))
    case Look(t) => DoLook(s, t)
    case ReadCold(t, addr) => DoReadCold(s, t, addr)
    case ReadFails(t) => SetTask(s, t, At(s.tasks[t], NeedBuffer))
    case Acquire(t, buf) => DoAcquire(s, t, buf)
    case Protocol(step) =>
      s.(sf := SF.Step(s.sf, step),
         fetched := if step.GetOk? then s.fetched + {s.sf.calls[step.c].key} else s.fetched)
    case Return(t, addr) => DoReturn(s, t, addr)
    case Store(t) => DoStore(s, t)
    case ColdWrite(i) => DoColdWrite(s, i)
    case ColdFail(i) => s.(pending := s.pending[..i] + s.pending[i + 1..])
    case Write(t) => assert TaskOk(s, t); SetTask(s, t, Written(s.sf, s.tasks[t]))
    case Disconnect(t, n) => assert TaskOk(s, t); SetTask(s, t, BrokenOff(s.sf, s.tasks[t], n))
  }

  // ---------------------------------------------------------------- invariant

  /** The array at a is one that holds chunk k. */
  predicate IsChunk(sf: SF.State, a: Addr, k: ChunkKey) {
    a in sf.mem && sf.mem[a].tag == SF.Data(k)
  }

  predicate EntryOk(sf: SF.State, e: Entry<Addr>) {
    IsChunk(sf, e.val, e.key) && e.size == |sf.mem[e.val].content|
  }

  predicate PoolOk(s: State, a: Addr) {
    a in s.sf.mem && s.sf.mem[a].tag.Free? && |s.sf.mem[a].content| == CHUNK_SIZE
  }

  predicate HoldsBuffer(s: State, t: TaskId, buf: Addr) {
    buf in s.sf.mem && s.sf.mem[buf].tag == SF.Held(t) && |s.sf.mem[buf].content| == CHUNK_SIZE
  }

  /** A handler's chunks so far are the chunks of its range, in order, and its body so far is
      the range up to the last slice written. */
  ghost predicate HandlerOk(sf: SF.State, task: Task)
    requires task.Handler?
  {
    var first := ChunkOf(task.start);
    && task.key in sf.objects
    && task.start <= task.end < |sf.objects[task.key]| <= MAX_INT64
    && first + |task.chunks| <= ChunkOf(task.end) + 1
    && (forall i | 0 <= i < |task.chunks| :: IsChunk(sf, task.chunks[i], ChunkKey(task.key, first + i)))
    && var content := sf.objects[task.key];
       var complete := first + |task.chunks| == ChunkOf(task.end) + 1;
       match task.phase
       case Writing(i) => complete && i <= |task.chunks|
                          && task.start <= Reached(task.start, task.end, i) <= |content|
                          && task.body == content[task.start..Reached(task.start, task.end, i)]
       case Finished => task.body == content[task.start..task.end + 1]
       case Failed => task.body <= content[task.start..task.end + 1]
       case _ => !complete && task.body == []
  }

  ghost predicate TaskOk(s: State, t: TaskId)
    requires t in s.tasks
  {
    var task := s.tasks[t];
    && (task.Handler? ==> HandlerOk(s.sf, task))
    && (task.Worker? ==> !task.phase.Writing? && !task.phase.ColdLooking?)
    && match task.phase
       case Fetching(buf) => HoldsBuffer(s, t, buf) && t in s.sf.calls
                             && s.sf.calls[t].buf == buf && WorksOn(task, s.sf.calls[t].key)
       case Storing(data, held) => IsChunk(s.sf, data, KeyOf(task)) && (held.Some? ==> HoldsBuffer(s, t, held.value))
       case _ => true
  }

  /** A buffer that is lent out is in the hands of the task it is labelled with. */
  predicate LoanOk(s: State, a: Addr)
    requires a in s.sf.mem
  {
    match s.sf.mem[a].tag
    case Free => a in s.pool
    case Held(t) => t in s.tasks && (s.tasks[t].phase == Fetching(a)
                                     || (s.tasks[t].phase.Storing? && s.tasks[t].phase.held == Some(a)))
    case Data(_) => true
  }

  ghost predicate Inv(s: State) {
    && SF.Inv(s.sf)
    && (forall k | k in s.sf.objects :: |s.sf.objects[k]| <= MAX_INT64)
    && (forall t | t in s.tasks :: TaskOk(s, t))
    && (forall t | t in s.sf.calls :: t in s.tasks && s.tasks[t].phase.Fetching?)
    && (forall a | a in s.pool :: PoolOk(s, a))
    && (forall a | a in s.sf.mem :: LoanOk(s, a))
    && (forall i, e | 0 <= i < NUM_SHARDS && e in s.hot[i] :: EntryOk(s.sf, e))
    && (forall e | e in s.pending :: EntryOk(s.sf, e))
    && (forall k | k in s.cold :: HasChunk(s.sf.objects, k) && s.cold[k] == Chunk(s.sf.objects, k))
  }
}
