/** Every reachable state of the proxy: all cached, pending, shared and delivered bytes are the
    true chunks, no buffer is in two places, and every finished response is the requested range. */
module SystemSafety {
  import opened Basics
  import opened HotSpec
  import opened LruSpec
  import opened Fnv
  import opened Assembly
  import opened RangeHeader
  import opened System
  import SF = SingleFlight
  import Safe = SingleFlightSafety
  import Env = SingleFlightEnv

  // ---------------------------------------------------------------- frames

  /** Objects never change, chunk arrays are kept. */
  ghost predicate Grows(s: State, t: State) {
    t.sf.objects == s.sf.objects && Env.DataKept(s.sf, t.sf)
  }

  lemma EntryFrame(s: State, t: State, e: Entry<Addr>)
    requires Grows(s, t) && EntryOk(s.sf, e)
    ensures EntryOk(t.sf, e)
  {
  }

  lemma HandlerFrame(s: State, t: State, task: Task)
    requires Grows(s, t) && task.Handler? && HandlerOk(s.sf, task)
    ensures HandlerOk(t.sf, task)
  {
    forall i | 0 <= i < |task.chunks|
      ensures IsChunk(t.sf, task.chunks[i], ChunkKey(task.key, ChunkOf(task.start) + i)) {
      assert IsChunk(s.sf, task.chunks[i], ChunkKey(task.key, ChunkOf(task.start) + i));
    }
  }

  /** The buffer a task holds stays with it. */
  ghost predicate SameHold(s: State, t: State, id: TaskId)
    requires id in s.tasks
  {
    match s.tasks[id].phase
    case Fetching(buf) => HoldsBuffer(t, id, buf) && id in t.sf.calls && id in s.sf.calls
                          && t.sf.calls[id].buf == s.sf.calls[id].buf && t.sf.calls[id].key == s.sf.calls[id].key
    case Storing(_, held) => held.Some? ==> HoldsBuffer(t, id, held.value)
    case _ => true
  }

  lemma TaskFrame(s: State, t: State, id: TaskId)
    requires Grows(s, t) && id in s.tasks && id in t.tasks && t.tasks[id] == s.tasks[id]
    requires TaskOk(s, id) && SameHold(s, t, id)
    ensures TaskOk(t, id)
  {
    if s.tasks[id].Handler? { HandlerFrame(s, t, s.tasks[id]); }
  }

  /** Everything outside the tasks, if hot entries and pending writes come from s or are new and right. */
  ghost predicate StoresOk(s: State) {
    && (forall i, e | 0 <= i < NUM_SHARDS && e in s.hot[i] :: EntryOk(s.sf, e))
    && (forall e | e in s.pending :: EntryOk(s.sf, e))
    && (forall k | k in s.cold :: HasChunk(s.sf.objects, k) && s.cold[k] == Chunk(s.sf.objects, k))
  }

  ghost predicate TasksOk(s: State) {
    && (forall t | t in s.tasks :: TaskOk(s, t))
    && (forall t | t in s.sf.calls :: t in s.tasks && s.tasks[t].phase.Fetching?)
  }

  ghost predicate BuffersOk(s: State) {
    && (forall a | a in s.pool :: PoolOk(s, a))
    && (forall a | a in s.sf.mem :: LoanOk(s, a))
  }

  lemma InvParts(s: State)
    ensures Inv(s) <==> SF.Inv(s.sf) && (forall k | k in s.sf.objects :: |s.sf.objects[k]| <= MAX_INT64)
                        && TasksOk(s) && BuffersOk(s) && StoresOk(s)
  {
  }

  lemma StoresFrame(s: State, t: State)
    requires StoresOk(s) && Grows(s, t)
    requires t.cold == s.cold
    requires forall e | e in t.pending :: e in s.pending || EntryOk(t.sf, e)
    requires forall i, e | 0 <= i < NUM_SHARDS && e in t.hot[i] :: e in s.hot[i] || EntryOk(t.sf, e)
    ensures StoresOk(t)
  {
    forall e | e in t.pending ensures EntryOk(t.sf, e) { if e in s.pending { EntryFrame(s, t, e); } }
    forall i, e | 0 <= i < NUM_SHARDS && e in t.hot[i] ensures EntryOk(t.sf, e) {
      if e in s.hot[i] { EntryFrame(s, t, e); }
    }
  }

  /** Only the task id and its call move. */
  lemma OneTaskMoves(s: State, t: State, id: TaskId)
    requires TasksOk(s) && Grows(s, t)
    requires t.tasks.Keys == s.tasks.Keys + {id}
    requires forall x | x in s.tasks && x != id :: t.tasks[x] == s.tasks[x] && SameHold(s, t, x)
    requires TaskOk(t, id)
    requires forall x | x in t.sf.calls && x != id :: x in s.sf.calls
    requires id in t.sf.calls ==> t.tasks[id].phase.Fetching?
    ensures TasksOk(t)
  {
    forall x | x in t.tasks ensures TaskOk(t, x) { if x != id { TaskFrame(s, t, x); } }
  }

  /** Memory and calls are untouched: nobody's buffer moves. */
  lemma QuietHold(s: State, t: State, id: TaskId)
    requires TasksOk(s) && id in s.tasks && t.sf == s.sf
    ensures SameHold(s, t, id)
  {
    assert TaskOk(s, id);
  }

  /** The task has the buffer: it fetches into it, or has yet to give it back. */
  predicate Holding(s: State, id: TaskId, a: Addr) {
    id in s.tasks && (s.tasks[id].phase == Fetching(a)
                      || (s.tasks[id].phase.Storing? && s.tasks[id].phase.held == Some(a)))
  }

  /** Tasks other than id keep their state. */
  ghost predicate OthersSame(s: State, t: State, id: TaskId) {
    t.tasks.Keys == s.tasks.Keys + {id} && forall x | x in s.tasks && x != id :: t.tasks[x] == s.tasks[x]
  }

  /** Old arrays except b keep label and length; new ones except b hold chunks. */
  ghost predicate LabelsKept(s: State, t: State, b: Option<Addr>) {
    && (forall a | a in s.sf.mem && b != Some(a) ::
          a in t.sf.mem && t.sf.mem[a].tag == s.sf.mem[a].tag && |t.sf.mem[a].content| == |s.sf.mem[a].content|)
    && (forall a | a in t.sf.mem && a !in s.sf.mem && b != Some(a) :: t.sf.mem[a].tag.Data?)
  }

  /** At most one buffer, b, changes hands, and task id lets go of no other. */
  lemma BuffersMove(s: State, t: State, id: TaskId, b: Option<Addr>)
    requires BuffersOk(s) && OthersSame(s, t, id) && LabelsKept(s, t, b)
    requires forall a: Addr | b != Some(a) :: a in t.pool <==> a in s.pool
    requires b.Some? && b.value in t.pool ==> PoolOk(t, b.value)
    requires b.Some? && b.value in t.sf.mem ==> LoanOk(t, b.value)
    requires forall a: Addr | b != Some(a) && Holding(s, id, a) :: Holding(t, id, a)
    ensures BuffersOk(t)
  {
    forall a | a in t.pool ensures PoolOk(t, a) { if b != Some(a) { assert PoolOk(s, a); } }
    forall a | a in t.sf.mem ensures LoanOk(t, a) {
      if b != Some(a) && a in s.sf.mem {
        assert LoanOk(s, a);
        if s.sf.mem[a].tag == SF.Held(id) { assert Holding(s, id, a); }
      }
    }
  }

  /** The tasks, the buffers and the rest, put together. */
  lemma Together(s: State, t: State, id: TaskId, b: Option<Addr>)
    requires Inv(s) && SF.Inv(t.sf) && Grows(s, t)
    requires OthersSame(s, t, id) && LabelsKept(s, t, b)
    requires forall x | x in s.tasks && x != id :: SameHold(s, t, x)
    requires id in t.tasks && TaskOk(t, id)
    requires forall x | x in t.sf.calls && x != id :: x in s.sf.calls
    requires id in t.sf.calls ==> t.tasks[id].phase.Fetching?
    requires forall a: Addr | b != Some(a) :: a in t.pool <==> a in s.pool
    requires b.Some? && b.value in t.pool ==> PoolOk(t, b.value)
    requires b.Some? && b.value in t.sf.mem ==> LoanOk(t, b.value)
    requires forall a: Addr | b != Some(a) && Holding(s, id, a) :: Holding(t, id, a)
    requires StoresOk(t)
    ensures Inv(t)
  {
    InvParts(s);
    OneTaskMoves(s, t, id);
    BuffersMove(s, t, id, b);
    InvParts(t);
  }

  /** A task that takes no array and gives none back. */
  lemma TogetherQuiet(s: State, t: State, id: TaskId)
    requires Inv(s) && t.sf == s.sf && t.pool == s.pool && OthersSame(s, t, id)
    requires id in t.tasks && TaskOk(t, id)
    requires id in s.sf.calls ==> t.tasks[id].phase.Fetching?
    requires forall a: Addr | Holding(s, id, a) :: Holding(t, id, a)
    requires StoresOk(t)
    ensures Inv(t)
  {
    InvParts(s);
    forall x | x in s.tasks && x != id ensures SameHold(s, t, x) { QuietHold(s, t, x); }
    Together(s, t, id, None);
  }

  // ---------------------------------------------------------------- steps that touch no array

  lemma RequestKeepsInv(s: State, t: TaskId, header: string, key: ObjectKey)
    requires Inv(s) && Enabled(s, Request(t, header, key))
    ensures Inv(DoRequest(s, t, header, key))
  {
    var s' := DoRequest(s, t, header, key);
    InvParts(s);
    ResolvedIsInside(header, |s.sf.objects[key]|);
    ChunkOfMonotone(s'.tasks[t].start, s'.tasks[t].end);
    StoresFrame(s, s');
    TogetherQuiet(s, s', t);
  }

  lemma JobKeepsInv(s: State, t: TaskId, chunk: ChunkKey)
    requires Inv(s) && Enabled(s, Job(t, chunk))
    ensures Inv(Step(s, Job(t, chunk)))
  {
    var s' := Step(s, Job(t, chunk));
    InvParts(s);
    StoresFrame(s, s');
    TogetherQuiet(s, s', t);
  }

  /** The next chunk of a handler is one its range needs. */
  lemma CurrentIsNeeded(sf: SF.State, task: Task)
    requires task.Handler? && HandlerOk(sf, task)
    requires !task.phase.Writing? && !task.phase.Finished? && !task.phase.Failed?
    ensures Current(task) < TWO_64 && Needed(sf.objects, KeyOf(task), task.start, task.end)
  {
    ChunkOfMonotone(task.start, task.end);
  }

  /** Delivering the array of its current chunk keeps a task in order. */
  lemma DeliverOk(sf: SF.State, task: Task, data: Addr)
    requires task.Handler? ==> HandlerOk(sf, task)
    requires !task.phase.Writing? && !task.phase.Finished? && !task.phase.Failed?
    requires IsChunk(sf, data, KeyOf(task))
    ensures Delivered(task, data).Handler? ==> HandlerOk(sf, Delivered(task, data))
    ensures var p := Delivered(task, data).phase; p.Looking? || p.Writing? || p.Finished?
    ensures Delivered(task, data).Worker? ==> Delivered(task, data).phase.Finished?
  {
    if task.Handler? {
      CurrentIsNeeded(sf, task);
      var task' := Delivered(task, data);
      var first := ChunkOf(task.start);
      forall i | 0 <= i < |task'.chunks| ensures IsChunk(sf, task'.chunks[i], ChunkKey(task.key, first + i)) {
        if i < |task.chunks| { assert IsChunk(sf, task.chunks[i], ChunkKey(task.key, first + i)); }
      }
      assert sf.objects[task.key][task.start..task.start] == [];
    }
  }

  lemma LookStores(s: State, t: TaskId)
    requires Inv(s) && Enabled(s, Look(t))
    ensures StoresOk(DoLook(s, t))
  {
    assert TaskOk(s, t);
    var k := KeyOf(s.tasks[t]);
    var l := ListOf(s.hot, k);
    if Resident(s.hot, k) { ListMembers(l, 0, l[Find(l, k)]); }
    InvParts(s);
    StoresFrame(s, DoLook(s, t));
  }

  lemma LookOwn(s: State, t: TaskId)
    requires Inv(s) && Enabled(s, Look(t))
    ensures TaskOk(DoLook(s, t), t)
  {
    assert TaskOk(s, t);
    var k := KeyOf(s.tasks[t]);
    var l := ListOf(s.hot, k);
    if Resident(s.hot, k) {
      var e := l[Find(l, k)];
      assert e in l && EntryOk(s.sf, e) && e.key == k;
      DeliverOk(s.sf, s.tasks[t], e.val);
    }
  }

  lemma LookKeepsInv(s: State, t: TaskId)
    requires Inv(s) && Enabled(s, Look(t))
    ensures Inv(DoLook(s, t))
  {
    assert TaskOk(s, t) && t !in s.sf.calls;
    LookStores(s, t);
    LookOwn(s, t);
    TogetherQuiet(s, DoLook(s, t), t);
  }

  /** The array of a delivered chunk holds that chunk. */
  lemma DeliveredBytes(sf: SF.State, task: Task, i: nat)
    requires task.Handler? && HandlerOk(sf, task) && i < |task.chunks|
    requires task.chunks[i] in sf.mem && SF.CellOk(sf, task.chunks[i])
    ensures var k := ChunkKey(task.key, ChunkOf(task.start) + i);
            && Needed(sf.objects, k, task.start, task.end) && HasChunk(sf.objects, k)
            && task.chunks[i] in sf.mem && sf.mem[task.chunks[i]].content == Chunk(sf.objects, k)
  {
    ChunkOfMonotone(task.start, task.end);
    assert IsChunk(sf, task.chunks[i], ChunkKey(task.key, ChunkOf(task.start) + i));
  }

  /** One more slice goes out; the early break is not taken. */
  lemma SliceOk(sf: SF.State, task: Task, k: ChunkKey)
    requires task.Handler? && task.phase.Writing? && HandlerOk(sf, task)
    requires task.phase.i < |task.chunks| && k == ChunkKey(task.key, ChunkOf(task.start) + task.phase.i)
    requires Needed(sf.objects, k, task.start, task.end) && HasChunk(sf.objects, k)
    ensures var task' := AfterSlice(task, Chunk(sf.objects, k));
            task'.phase == Writing(task.phase.i + 1) && HandlerOk(sf, task')
  {
    SliceIsNext(sf.objects, k, task.start, task.end);
    SliceGrows(task, Chunk(sf.objects, k), k.chunkIndex);
    WritingOk(sf, task, AfterSlice(task, Chunk(sf.objects, k)));
  }

  lemma SliceGrows(task: Task, chunk: bytes, index: nat)
    requires task.Handler? && task.phase.Writing? && index == ChunkOf(task.start) + task.phase.i
    requires var (from, to) := Slice(index, |chunk|, task.start, task.end); 0 <= from < to <= |chunk|
    ensures var (u, (from, to)) := (AfterSlice(task, chunk), Slice(index, |chunk|, task.start, task.end));
            && u == Handler(task.header, task.key, task.start, task.end, task.chunks, task.body + chunk[from..to],
                            Writing(task.phase.i + 1))
  {
  }

  /** The body has grown by the slice, and nothing else has changed. */
  lemma WritingOk(sf: SF.State, task: Task, u: Task)
    requires task.Handler? && task.phase.Writing? && HandlerOk(sf, task) && task.phase.i < |task.chunks|
    requires u.Handler? && u.key == task.key && u.start == task.start && u.end == task.end && u.chunks == task.chunks
    requires u.phase == Writing(task.phase.i + 1)
    requires var (p, content) := (Reached(task.start, task.end, task.phase.i + 1), sf.objects[task.key]);
             task.start <= p <= |content| && u.body == content[task.start..p]
    ensures HandlerOk(sf, u)
  {
  }

  lemma EndOk(sf: SF.State, task: Task)
    requires task.Handler? && task.phase.Writing? && HandlerOk(sf, task)
    requires task.phase.i >= |task.chunks|
    ensures HandlerOk(sf, At(task, Finished))
  {
    LastReaches(task.start, task.end);
  }

  lemma WrittenSlice(sf: SF.State, task: Task)
    requires task.Handler? && task.phase.Writing? && HandlerOk(sf, task) && task.phase.i < |task.chunks|
    requires task.chunks[task.phase.i] in sf.mem && SF.CellOk(sf, task.chunks[task.phase.i])
    ensures var task' := Written(sf, task);
            task'.Handler? && HandlerOk(sf, task') && task'.phase.Writing?
  {
    var k := ChunkKey(task.key, ChunkOf(task.start) + task.phase.i);
    DeliveredBytes(sf, task, task.phase.i);
    SliceOk(sf, task, k);
    assert Written(sf, task) == AfterSlice(task, Chunk(sf.objects, k));
  }

  lemma WrittenOk(sf: SF.State, task: Task)
    requires task.Handler? && task.phase.Writing? && HandlerOk(sf, task)
    requires task.phase.i < |task.chunks| ==>
               task.chunks[task.phase.i] in sf.mem && SF.CellOk(sf, task.chunks[task.phase.i])
    ensures var task' := Written(sf, task);
            task'.Handler? && HandlerOk(sf, task') && (task'.phase.Writing? || task'.phase.Finished?)
  {
    if task.phase.i < |task.chunks| { WrittenSlice(sf, task); } else { EndOk(sf, task); }
  }

  /** A task gets a new state that holds no array. */
  lemma NewPhaseKeepsInv(s: State, t: TaskId, task: Task)
    requires Inv(s) && t in s.tasks && t !in s.sf.calls
    requires !s.tasks[t].phase.Fetching? && !s.tasks[t].phase.Storing?
    requires task.Handler? ==> HandlerOk(s.sf, task)
    requires task.Worker? ==> !task.phase.Writing? && !task.phase.ColdLooking?
    requires !task.phase.Fetching? && !task.phase.Storing?
    ensures Inv(SetTask(s, t, task))
  {
    var s' := SetTask(s, t, task);
    InvParts(s);
    StoresFrame(s, s');
    TogetherQuiet(s, s', t);
  }

  lemma NextSliceOk(s: State, t: TaskId)
    requires Inv(s) && t in s.tasks && s.tasks[t].Handler? && s.tasks[t].phase.Writing? && TaskOk(s, t)
    ensures var u := Written(s.sf, s.tasks[t]);
            u.Handler? && HandlerOk(s.sf, u) && (u.phase.Writing? || u.phase.Finished?)
  {
    var task := s.tasks[t];
    if task.phase.i < |task.chunks| {
      assert IsChunk(s.sf, task.chunks[task.phase.i], ChunkKey(task.key, ChunkOf(task.start) + task.phase.i));
    }
    WrittenOk(s.sf, task);
  }

  lemma WriteKeepsInv(s: State, t: TaskId)
    requires Inv(s) && Enabled(s, Write(t))
    ensures Inv(Step(s, Write(t)))
  {
    assert TaskOk(s, t);
    NextSliceOk(s, t);
    NewPhaseKeepsInv(s, t, Written(s.sf, s.tasks[t]));
  }

  lemma AbortOk(sf: SF.State, task: Task)
    requires task.Handler? && task.phase.Writing? && HandlerOk(sf, task)
    ensures HandlerOk(sf, At(task, Failed))
  {
    var content := sf.objects[task.key];
    var p := Reached(task.start, task.end, task.phase.i);
    assert content[task.start..task.end + 1][..p - task.start] == content[task.start..p];
  }

  lemma PrefixOfPrefix<T>(a: seq<T>, b: seq<T>, n: nat)
    requires a <= b && n <= |a|
    ensures a[..n] <= b
  {
  }

  /** A response that breaks off within a slice is a prefix, too. */
  lemma BrokenOffOk(sf: SF.State, task: Task, u: Task, n: nat)
    requires task.Handler? && task.phase.Writing? && HandlerOk(sf, task) && u == Written(sf, task)
    requires u.Handler? && HandlerOk(sf, u) && (u.phase.Writing? || u.phase.Finished?)
    ensures HandlerOk(sf, BrokenOff(sf, task, n))
  {
    WrittenKeeps(sf, task);
    IsPrefix(sf, u);
    PrefixOfPrefix(u.body, sf.objects[task.key][task.start..task.end + 1], Min(|task.body| + n, |u.body|));
    FailedOk(sf, u, BrokenOff(sf, task, n));
  }

  lemma WrittenKeeps(sf: SF.State, task: Task)
    requires task.Handler? && task.phase.Writing? && HandlerOk(sf, task)
    ensures var u := Written(sf, task);
            && u.Handler? && u.key == task.key && u.start == task.start && u.end == task.end && u.chunks == task.chunks
            && |u.body| >= |task.body|
  {
  }

  lemma IsPrefix(sf: SF.State, task: Task)
    requires task.Handler? && HandlerOk(sf, task) && (task.phase.Writing? || task.phase.Finished?)
    ensures task.body <= sf.objects[task.key][task.start..task.end + 1]
  {
    if task.phase.Writing? { AbortOk(sf, task); }
  }

  lemma FailedOk(sf: SF.State, task: Task, failed: Task)
    requires task.Handler? && HandlerOk(sf, task) && failed.Handler? && failed.phase.Failed?
    requires failed.key == task.key && failed.start == task.start && failed.end == task.end
    requires failed.chunks == task.chunks
    requires failed.body <= sf.objects[task.key][task.start..task.end + 1]
    ensures HandlerOk(sf, failed)
  {
  }

  lemma DisconnectKeepsInv(s: State, t: TaskId, n: nat)
    requires Inv(s) && Enabled(s, Disconnect(t, n))
    ensures Inv(Step(s, Disconnect(t, n)))
  {
    assert TaskOk(s, t);
    NextSliceOk(s, t);
    BrokenOffOk(s.sf, s.tasks[t], Written(s.sf, s.tasks[t]), n);
    NewPhaseKeepsInv(s, t, BrokenOff(s.sf, s.tasks[t], n));
  }

  lemma ColdTasks(s: State, a: Action)
    requires Inv(s) && Enabled(s, a) && (a.ColdWrite? || a.ColdFail?)
    ensures TasksOk(Step(s, a))
  {
    var s' := Step(s, a);
    InvParts(s);
    forall x | x in s.tasks ensures TaskOk(s', x) { QuietHold(s, s', x); TaskFrame(s, s', x); }
  }

  lemma ColdBuffers(s: State, u: State)
    requires BuffersOk(s) && u.sf == s.sf && u.pool == s.pool && u.tasks == s.tasks
    ensures BuffersOk(u)
  {
    forall b | b in u.pool ensures PoolOk(u, b) { assert PoolOk(s, b); }
    forall b | b in u.sf.mem ensures LoanOk(u, b) { assert LoanOk(s, b); }
  }

  lemma ColdStores(s: State, a: Action)
    requires Inv(s) && Enabled(s, a) && (a.ColdWrite? || a.ColdFail?)
    ensures StoresOk(Step(s, a))
  {
    var e, u := s.pending[a.i], Step(s, a);
    assert EntryOk(s.sf, e) && SF.CellOk(s.sf, e.val);
    forall x | x in u.pending ensures EntryOk(u.sf, x) { assert x in s.pending; }
  }

  /** A background write moves the bytes of a pending victim to the disk. */
  lemma ColdKeepsInv(s: State, a: Action)
    requires Inv(s) && Enabled(s, a) && (a.ColdWrite? || a.ColdFail?)
    ensures Inv(Step(s, a))
  {
    InvParts(s);
    InvParts(Step(s, a));
    ColdTasks(s, a);
    ColdBuffers(s, Step(s, a));
    ColdStores(s, a);
  }

  // ---------------------------------------------------------------- steps that move arrays

  lemma OthersHold(s: State, t: State, id: TaskId, b: Option<Addr>)
    requires TasksOk(s) && LabelsKept(s, t, b)
    requires forall x | x in s.sf.calls && x != id :: x in t.sf.calls
    requires forall x | x in s.sf.calls && x in t.sf.calls && x != id :: t.sf.calls[x] == s.sf.calls[x]
    requires b.Some? && b.value in s.sf.mem && s.sf.mem[b.value].tag.Held? ==> s.sf.mem[b.value].tag.holder == id
    ensures forall x | x in s.tasks && x != id :: SameHold(s, t, x)
  {
    forall x | x in s.tasks && x != id ensures SameHold(s, t, x) { assert TaskOk(s, x); }
  }

  /** What a step of task id does to memory and calls; at most the buffer b changes hands. */
  ghost predicate SfMoved(s: State, t: State, id: TaskId, b: Option<Addr>) {
    && SF.Inv(t.sf) && Grows(s, t) && LabelsKept(s, t, b)
    && t.sf.calls.Keys + {id} == s.sf.calls.Keys + {id}
    && (forall x | x in s.sf.calls && x in t.sf.calls && x != id :: t.sf.calls[x] == s.sf.calls[x])
    && (b.Some? && b.value in s.sf.mem && s.sf.mem[b.value].tag.Held? ==> s.sf.mem[b.value].tag.holder == id)
  }

  /** ... and to tasks and pool, if it leaves the caches alone. */
  ghost predicate TaskMoved(s: State, t: State, id: TaskId, b: Option<Addr>) {
    && t.hot == s.hot && t.pending == s.pending && t.cold == s.cold
    && OthersSame(s, t, id)
    && id in t.tasks && TaskOk(t, id)
    && (id in t.sf.calls ==> t.tasks[id].phase.Fetching?)
    && t.pool - BufferSet(b) == s.pool - BufferSet(b)
    && (b.Some? && b.value in t.pool ==> PoolOk(t, b.value))
    && (b.Some? && b.value in t.sf.mem ==> LoanOk(t, b.value))
    && (forall a: Addr | b != Some(a) && Holding(s, id, a) :: Holding(t, id, a))
  }

  lemma CallsKept(s: State, t: State, id: TaskId)
    requires t.sf.calls.Keys + {id} == s.sf.calls.Keys + {id}
    ensures forall x | x in t.sf.calls && x != id :: x in s.sf.calls
    ensures forall x | x in s.sf.calls && x != id :: x in t.sf.calls
  {
    forall x | x in t.sf.calls && x != id ensures x in s.sf.calls { assert x in t.sf.calls.Keys + {id}; }
    forall x | x in s.sf.calls && x != id ensures x in t.sf.calls { assert x in s.sf.calls.Keys + {id}; }
  }

  lemma PoolKept(s: State, t: State, b: Option<Addr>)
    requires t.pool - BufferSet(b) == s.pool - BufferSet(b)
    ensures forall a: Addr | b != Some(a) :: a in t.pool <==> a in s.pool
  {
    forall a: Addr | b != Some(a) ensures a in t.pool <==> a in s.pool {
      assert a in t.pool - BufferSet(b) <==> a in s.pool - BufferSet(b);
    }
  }

  lemma Conclude(s: State, t: State, id: TaskId, b: Option<Addr>)
    requires Inv(s) && SfMoved(s, t, id, b) && TaskMoved(s, t, id, b)
    ensures Inv(t)
  {
    InvParts(s);
    CallsKept(s, t, id);
    PoolKept(s, t, b);
    StoresFrame(s, t);
    OthersHold(s, t, id, b);
    Together(s, t, id, b);
  }

  function BufferSet(b: Option<Addr>): set<Addr> {
    if b.Some? then {b.value} else {}
  }

  // ReadCold: if the disk has the chunk, its bytes are in a new array.

  lemma ColdHitSf(s: State, t: TaskId, a: Addr)
    requires Inv(s) && Enabled(s, ReadCold(t, a)) && TaskOk(s, t) && KeyOf(s.tasks[t]) in s.cold
    ensures SfMoved(s, DoReadCold(s, t, a), t, None)
  {
    var k := KeyOf(s.tasks[t]);
    Env.AllocKeepsInv(s.sf, a, s.cold[k], SF.Data(k));
  }

  lemma ColdHitTask(s: State, t: TaskId, a: Addr)
    requires Inv(s) && Enabled(s, ReadCold(t, a)) && TaskOk(s, t) && KeyOf(s.tasks[t]) in s.cold
    requires Grows(s, DoReadCold(s, t, a))
    ensures TaskMoved(s, DoReadCold(s, t, a), t, None)
  {
    if s.tasks[t].Handler? { HandlerFrame(s, DoReadCold(s, t, a), s.tasks[t]); }
  }

  lemma ReadColdKeepsInv(s: State, t: TaskId, a: Addr)
    requires Inv(s) && Enabled(s, ReadCold(t, a))
    ensures Inv(DoReadCold(s, t, a))
  {
    assert TaskOk(s, t);
    if KeyOf(s.tasks[t]) in s.cold {
      ColdHitSf(s, t, a);
      ColdHitTask(s, t, a);
      Conclude(s, DoReadCold(s, t, a), t, None);
    } else {
      NewPhaseKeepsInv(s, t, At(s.tasks[t], NeedBuffer));
    }
  }

  lemma ReadFailsKeepsInv(s: State, t: TaskId)
    requires Inv(s) && Enabled(s, ReadFails(t))
    ensures Inv(Step(s, ReadFails(t)))
  {
    assert TaskOk(s, t);
    NewPhaseKeepsInv(s, t, At(s.tasks[t], NeedBuffer));
  }

  // Acquire: a pooled or new buffer is labelled with its new holder, whose call begins.

  lemma AcquireSf(s: State, t: TaskId, buf: Addr)
    requires Inv(s) && Enabled(s, Acquire(t, buf)) && TaskOk(s, t)
    ensures SfMoved(s, DoAcquire(s, t, buf), t, Some(buf)) && HoldsBuffer(DoAcquire(s, t, buf), t, buf)
  {
    var k := KeyOf(s.tasks[t]);
    assert t !in s.sf.calls;
    if buf in s.pool {
      assert PoolOk(s, buf);
      forall c | c in s.sf.calls ensures s.sf.calls[c].buf != buf { assert SF.CallOk(s.sf, c); }
      Env.HandKeepsInv(s.sf, buf, SF.Held(t));
      Env.BeginKeepsInv(Env.Hand(s.sf, buf, SF.Held(t)), t, k, buf);
    } else {
      Env.AllocKeepsInv(s.sf, buf, NewBuffer(), SF.Held(t));
      Env.BeginKeepsInv(Env.Alloc(s.sf, buf, NewBuffer(), SF.Held(t)), t, k, buf);
    }
  }

  lemma AcquireTask(s: State, t: TaskId, buf: Addr)
    requires Inv(s) && Enabled(s, Acquire(t, buf)) && TaskOk(s, t)
    requires Grows(s, DoAcquire(s, t, buf)) && HoldsBuffer(DoAcquire(s, t, buf), t, buf)
    ensures TaskMoved(s, DoAcquire(s, t, buf), t, Some(buf))
  {
    if s.tasks[t].Handler? { HandlerFrame(s, DoAcquire(s, t, buf), s.tasks[t]); }
  }

  lemma AcquireKeepsInv(s: State, t: TaskId, buf: Addr)
    requires Inv(s) && Enabled(s, Acquire(t, buf))
    ensures Inv(DoAcquire(s, t, buf))
  {
    assert TaskOk(s, t);
    AcquireSf(s, t, buf);
    AcquireTask(s, t, buf);
    Conclude(s, DoAcquire(s, t, buf), t, Some(buf));
  }

  // Return: the buffer is read, then goes back to the pool or stays for one more step.

  ghost predicate Returning(s: State, t: TaskId, a: Addr) {
    Inv(s) && Enabled(s, Return(t, a)) && TaskOk(s, t) && SF.CallOk(s.sf, t)
  }

  /** The call is over: nobody else's call uses its buffer. */
  lemma BufferIsFree(s: State, t: TaskId, sf: SF.State)
    requires Inv(s) && t in s.tasks && TaskOk(s, t) && s.tasks[t].phase.Fetching?
    requires SF.Inv(sf) && t !in sf.calls && forall c | c in sf.calls :: c in s.sf.calls && sf.calls[c] == s.sf.calls[c]
    requires s.tasks[t].phase.buf in sf.mem && sf.mem[s.tasks[t].phase.buf] == s.sf.mem[s.tasks[t].phase.buf]
    ensures var buf := s.tasks[t].phase.buf;
            SF.Inv(Env.Hand(sf, buf, SF.Free)) && Env.DataKept(sf, Env.Hand(sf, buf, SF.Free))
  {
    var buf := s.tasks[t].phase.buf;
    forall c | c in sf.calls ensures sf.calls[c].buf != buf { assert SF.CallOk(s.sf, c); }
    Env.HandKeepsInv(sf, buf, SF.Free);
  }

  /** Memory once the task has its own copy of the fetched chunk. */
  ghost function Copied(s: State, t: TaskId, a: Addr): SF.State
    requires Returning(s, t, a) && s.sf.calls[t].phase.ok
  {
    Env.Alloc(Env.End(s.sf, t), a, s.sf.mem[s.tasks[t].phase.buf].content[..s.sf.calls[t].phase.n],
              SF.Data(s.sf.calls[t].key))
  }

  /** Task t gets a new state, the buffer b, if any, goes back to the pool, the caches stay. */
  ghost predicate Turned(s: State, u: State, t: TaskId, task: Task, b: Option<Addr>) {
    && u.hot == s.hot && u.pending == s.pending && u.cold == s.cold
    && t in s.tasks && u.tasks == s.tasks[t := task] && u.pool == s.pool + BufferSet(b)
  }

  // What DoReturn does, in its three cases. What follows does not look into it again.

  lemma FailEffect(s: State, t: TaskId, a: Addr)
    requires Returning(s, t, a) && !s.sf.calls[t].phase.ok
    ensures var (u, buf) := (DoReturn(s, t, a), s.tasks[t].phase.buf);
            && Turned(s, u, t, At(s.tasks[t], Failed), Some(buf))
            && u.sf == Env.Hand(Env.End(s.sf, t), buf, SF.Free)
  {
  }

  lemma JoinedEffect(s: State, t: TaskId, a: Addr)
    requires Returning(s, t, a) && s.sf.calls[t].phase.ok && s.sf.calls[t].phase.joined && s.tasks[t].Handler?
    ensures var (u, buf) := (DoReturn(s, t, a), s.tasks[t].phase.buf);
            && Turned(s, u, t, Delivered(s.tasks[t], a), Some(buf))
            && buf in Copied(s, t, a).mem && u.sf == Env.Hand(Copied(s, t, a), buf, SF.Free)
  {
  }

  lemma LedEffect(s: State, t: TaskId, a: Addr)
    requires Returning(s, t, a) && s.sf.calls[t].phase.ok && !(s.sf.calls[t].phase.joined && s.tasks[t].Handler?)
    ensures var u := DoReturn(s, t, a);
            Turned(s, u, t, At(s.tasks[t], Storing(a, Some(s.tasks[t].phase.buf))), None) && u.sf == Copied(s, t, a)
  {
  }

  /** In all three cases: one task and its call move, the caches stay. */
  lemma ReturnTurns(s: State, t: TaskId, a: Addr)
    requires Inv(s) && Enabled(s, Return(t, a))
    ensures var u := DoReturn(s, t, a);
            && u.hot == s.hot && u.pending == s.pending && u.cold == s.cold && u.sf.objects == s.sf.objects
            && t in u.tasks && u.tasks == s.tasks[t := u.tasks[t]] && u.sf.calls == s.sf.calls - {t}
            && var task := u.tasks[t];
               || task == At(s.tasks[t], Failed) || task == Delivered(s.tasks[t], a)
               || task == At(s.tasks[t], Storing(a, Some(s.tasks[t].phase.buf)))
  {
    assert TaskOk(s, t) && SF.CallOk(s.sf, t);
    if !s.sf.calls[t].phase.ok {
      FailEffect(s, t, a);
    } else if s.sf.calls[t].phase.joined && s.tasks[t].Handler? {
      JoinedEffect(s, t, a);
    } else {
      LedEffect(s, t, a);
    }
  }

  /** The fetching task gives its buffer back, or keeps it while it stores. */
  lemma TurnedMoves(s: State, u: State, t: TaskId, task: Task, b: Option<Addr>)
    requires Turned(s, u, t, task, b) && s.tasks[t].phase.Fetching? && t !in u.sf.calls && TaskOk(u, t)
    requires b.Some? ==> b.value == s.tasks[t].phase.buf && PoolOk(u, b.value)
    requires b.None? ==> task.phase.Storing? && task.phase.held == Some(s.tasks[t].phase.buf)
    ensures TaskMoved(s, u, t, b)
  {
  }

  lemma FailOwn(s: State, u: State, t: TaskId, b: Option<Addr>)
    requires t in s.tasks && TaskOk(s, t) && s.tasks[t].phase.Fetching?
    requires Turned(s, u, t, At(s.tasks[t], Failed), b) && Grows(s, u)
    ensures TaskOk(u, t)
  {
    if s.tasks[t].Handler? { HandlerFrame(s, u, s.tasks[t]); }
  }

  lemma FailSf(s: State, u: State, t: TaskId, buf: Addr)
    requires Inv(s) && t in s.tasks && TaskOk(s, t) && s.tasks[t].phase == Fetching(buf)
    requires t in s.sf.calls && s.sf.calls[t].phase.Returned? && u.sf == Env.Hand(Env.End(s.sf, t), buf, SF.Free)
    ensures SfMoved(s, u, t, Some(buf))
  {
    Env.EndKeepsInv(s.sf, t);
    BufferIsFree(s, t, Env.End(s.sf, t));
    EndMoves(s, s.(sf := Env.End(s.sf, t)), t);
    HandBack(s, s.(sf := Env.End(s.sf, t)), u, t, buf);
  }

  lemma EndMoves(s: State, u: State, t: TaskId)
    requires SF.Inv(s.sf) && t in s.sf.calls && u.sf == Env.End(s.sf, t) && SF.Inv(u.sf)
    ensures SfMoved(s, u, t, None)
  {
  }

  lemma CopiedOk(s: State, t: TaskId, a: Addr)
    requires Returning(s, t, a) && s.sf.calls[t].phase.ok
    ensures SF.Inv(Copied(s, t, a)) && Env.DataKept(s.sf, Copied(s, t, a)) && s.sf.calls[t].key == KeyOf(s.tasks[t])
  {
    Env.EndKeepsInv(s.sf, t);
    Env.AllocKeepsInv(Env.End(s.sf, t), a, s.sf.mem[s.tasks[t].phase.buf].content[..s.sf.calls[t].phase.n],
                      SF.Data(s.sf.calls[t].key));
    if s.tasks[t].Handler? { CurrentIsNeeded(s.sf, s.tasks[t]); }
  }

  lemma CopiedLabels(s: State, t: TaskId, a: Addr)
    requires Returning(s, t, a) && s.sf.calls[t].phase.ok
    ensures LabelsKept(s, s.(sf := Copied(s, t, a)), None) && Copied(s, t, a).calls == s.sf.calls - {t}
  {
  }

  /** c is memory in which task t's call is over and its copy of its chunk is at a. */
  ghost predicate HasCopy(s: State, c: SF.State, t: TaskId, a: Addr, buf: Addr) {
    && t in s.tasks && TaskOk(s, t) && s.tasks[t].phase == Fetching(buf)
    && (s.tasks[t].Handler? ==> Current(s.tasks[t]) < TWO_64)
    && SfMoved(s, s.(sf := c), t, None) && t !in c.calls && IsChunk(c, a, KeyOf(s.tasks[t]))
    && buf in c.mem && c.mem[buf] == s.sf.mem[buf]
    && (forall x | x in c.calls :: x in s.sf.calls && c.calls[x] == s.sf.calls[x])
  }

  lemma CopiedMoves(s: State, t: TaskId, a: Addr)
    requires Returning(s, t, a) && s.sf.calls[t].phase.ok
    ensures SfMoved(s, s.(sf := Copied(s, t, a)), t, None)
  {
    CopiedOk(s, t, a);
    CopiedLabels(s, t, a);
  }

  lemma CopiedCells(s: State, t: TaskId, a: Addr)
    requires Returning(s, t, a) && s.sf.calls[t].phase.ok
    ensures var (c, buf) := (Copied(s, t, a), s.tasks[t].phase.buf);
            && t !in c.calls && IsChunk(c, a, s.sf.calls[t].key)
            && buf in c.mem && c.mem[buf] == s.sf.mem[buf]
            && (forall x | x in c.calls :: x in s.sf.calls && c.calls[x] == s.sf.calls[x])
  {
  }

  lemma CopiedHasCopy(s: State, t: TaskId, a: Addr)
    requires Returning(s, t, a) && s.sf.calls[t].phase.ok
    ensures HasCopy(s, Copied(s, t, a), t, a, s.tasks[t].phase.buf)
  {
    CopiedOk(s, t, a);
    CopiedMoves(s, t, a);
    CopiedCells(s, t, a);
    if s.tasks[t].Handler? { CurrentIsNeeded(s.sf, s.tasks[t]); }
  }

  /** Giving the buffer back on top of that. */
  lemma HandBack(s: State, u: State, v: State, t: TaskId, buf: Addr)
    requires SfMoved(s, u, t, None) && buf in s.sf.mem && s.sf.mem[buf].tag == SF.Held(t)
    requires buf in u.sf.mem && v.sf == Env.Hand(u.sf, buf, SF.Free) && SF.Inv(v.sf)
    ensures SfMoved(s, v, t, Some(buf))
  {
  }

  lemma JoinedSf(s: State, u: State, c: SF.State, t: TaskId, a: Addr, buf: Addr)
    requires Inv(s) && HasCopy(s, c, t, a, buf) && u.sf == Env.Hand(c, buf, SF.Free)
    ensures SfMoved(s, u, t, Some(buf))
  {
    BufferIsFree(s, t, c);
    HandBack(s, s.(sf := c), u, t, buf);
  }

  lemma JoinedOwn(s: State, u: State, t: TaskId, a: Addr, b: Option<Addr>)
    requires t in s.tasks && TaskOk(s, t) && s.tasks[t].phase.Fetching? && s.tasks[t].Handler?
    requires Turned(s, u, t, Delivered(s.tasks[t], a), b) && Grows(s, u)
    requires Current(s.tasks[t]) < TWO_64 && IsChunk(u.sf, a, KeyOf(s.tasks[t]))
    ensures TaskOk(u, t)
  {
    HandlerFrame(s, u, s.tasks[t]);
    DeliverOk(u.sf, s.tasks[t], a);
  }

  lemma LedOwn(s: State, u: State, t: TaskId, a: Addr, buf: Addr)
    requires t in s.tasks && TaskOk(s, t) && s.tasks[t].phase == Fetching(buf)
    requires Turned(s, u, t, At(s.tasks[t], Storing(a, Some(buf))), None) && Grows(s, u)
    requires s.tasks[t].Handler? ==> Current(s.tasks[t]) < TWO_64
    requires IsChunk(u.sf, a, KeyOf(s.tasks[t])) && HoldsBuffer(u, t, buf)
    ensures TaskOk(u, t)
  {
    if s.tasks[t].Handler? { HandlerFrame(s, u, s.tasks[t]); }
  }

  lemma FailConcludes(s: State, u: State, t: TaskId, buf: Addr)
    requires Inv(s) && t in s.tasks && TaskOk(s, t) && s.tasks[t].phase == Fetching(buf)
    requires t in s.sf.calls && s.sf.calls[t].phase.Returned?
    requires Turned(s, u, t, At(s.tasks[t], Failed), Some(buf)) && u.sf == Env.Hand(Env.End(s.sf, t), buf, SF.Free)
    ensures Inv(u)
  {
    FailSf(s, u, t, buf);
    FailOwn(s, u, t, Some(buf));
    TurnedMoves(s, u, t, At(s.tasks[t], Failed), Some(buf));
    Conclude(s, u, t, Some(buf));
  }

  lemma JoinedConcludes(s: State, u: State, c: SF.State, t: TaskId, a: Addr, buf: Addr)
    requires Inv(s) && HasCopy(s, c, t, a, buf) && s.tasks[t].Handler?
    requires Turned(s, u, t, Delivered(s.tasks[t], a), Some(buf)) && u.sf == Env.Hand(c, buf, SF.Free)
    ensures Inv(u)
  {
    JoinedSf(s, u, c, t, a, buf);
    JoinedOwn(s, u, t, a, Some(buf));
    TurnedMoves(s, u, t, Delivered(s.tasks[t], a), Some(buf));
    Conclude(s, u, t, Some(buf));
  }

  lemma LedConcludes(s: State, u: State, t: TaskId, a: Addr, buf: Addr)
    requires Inv(s) && HasCopy(s, u.sf, t, a, buf)
    requires Turned(s, u, t, At(s.tasks[t], Storing(a, Some(buf))), None)
    ensures Inv(u)
  {
    LedOwn(s, u, t, a, buf);
    TurnedMoves(s, u, t, At(s.tasks[t], Storing(a, Some(buf))), None);
    Conclude(s, u, t, None);
  }

  lemma ReturnKeepsInv(s: State, t: TaskId, a: Addr)
    requires Inv(s) && Enabled(s, Return(t, a))
    ensures Inv(DoReturn(s, t, a))
  {
    assert TaskOk(s, t) && SF.CallOk(s.sf, t);
    var (u, buf) := (DoReturn(s, t, a), s.tasks[t].phase.buf);
    if !s.sf.calls[t].phase.ok {
      FailEffect(s, t, a);
      FailConcludes(s, u, t, buf);
    } else if s.sf.calls[t].phase.joined && s.tasks[t].Handler? {
      JoinedEffect(s, t, a);
      CopiedHasCopy(s, t, a);
      JoinedConcludes(s, u, Copied(s, t, a), t, a, buf);
    } else {
      LedEffect(s, t, a);
      CopiedHasCopy(s, t, a);
      LedConcludes(s, u, t, a, buf);
    }
  }

  /** What Put keeps and what it evicts are entries that were there, or the new one. */
  lemma StoredOk(s: State, t: State, e: Entry<Addr>)
    requires StoresOk(s) && Grows(s, t) && t.cold == s.cold && EntryOk(s.sf, e)
    requires t.hot == Stored(s.hot, s.capacity, e)
    requires t.pending == s.pending + Evicted(s.hot, s.capacity, e)
    ensures StoresOk(t)
  {
    var l := ListOf(s.hot, e.key);
    ListMembers(l, PerShard(s.capacity), e);
    PutMembers(l, PerShard(s.capacity), e);
    forall x | x in t.pending ensures EntryOk(t.sf, x) {
      assert x in s.pending || x in l;
      EntryFrame(s, t, x);
    }
    forall i, x | 0 <= i < NUM_SHARDS && x in t.hot[i] ensures EntryOk(t.sf, x) {
      assert x in s.hot[i] || x == e;
      EntryFrame(s, t, x);
    }
  }

  lemma StoreSf(s: State, t: TaskId)
    requires Inv(s) && Enabled(s, Store(t)) && TaskOk(s, t)
    ensures SfMoved(s, DoStore(s, t), t, s.tasks[t].phase.held)
  {
    var held := s.tasks[t].phase.held;
    if held.Some? {
      forall c | c in s.sf.calls ensures s.sf.calls[c].buf != held.value { assert SF.CallOk(s.sf, c); }
      Env.HandKeepsInv(s.sf, held.value, SF.Free);
    }
  }

  lemma StoreOwn(s: State, t: TaskId)
    requires Inv(s) && Enabled(s, Store(t)) && TaskOk(s, t) && Grows(s, DoStore(s, t))
    ensures TaskOk(DoStore(s, t), t) && !DoStore(s, t).tasks[t].phase.Fetching?
  {
    var s' := DoStore(s, t);
    if s.tasks[t].Handler? { HandlerFrame(s, s', s.tasks[t]); }
    DeliverOk(s'.sf, s.tasks[t], s.tasks[t].phase.data);
  }

  lemma StoreStores(s: State, t: TaskId)
    requires Inv(s) && Enabled(s, Store(t)) && TaskOk(s, t) && Grows(s, DoStore(s, t))
    ensures StoresOk(DoStore(s, t))
  {
    var data := s.tasks[t].phase.data;
    StoredOk(s, DoStore(s, t), Entry(KeyOf(s.tasks[t]), |s.sf.mem[data].content|, data));
  }

  lemma StoreBuffer(s: State, t: TaskId)
    requires Inv(s) && Enabled(s, Store(t)) && TaskOk(s, t)
    ensures var (s', held) := (DoStore(s, t), s.tasks[t].phase.held);
            && OthersSame(s, s', t)
            && (held.Some? ==> PoolOk(s', held.value) && LoanOk(s', held.value))
            && (forall a: Addr | held != Some(a) :: a in s'.pool <==> a in s.pool)
  {
  }

  lemma StoreKeepsInv(s: State, t: TaskId)
    requires Inv(s) && Enabled(s, Store(t))
    ensures Inv(DoStore(s, t))
  {
    InvParts(s);
    assert TaskOk(s, t) && t !in s.sf.calls;
    StoreSf(s, t);
    StoreOwn(s, t);
    StoreStores(s, t);
    StoreBuffer(s, t);
    OthersHold(s, DoStore(s, t), t, s.tasks[t].phase.held);
    Together(s, DoStore(s, t), t, s.tasks[t].phase.held);
  }

  lemma ProtocolTasks(s: State, t: State)
    requires TasksOk(s) && Env.Keeps(s.sf, t.sf) && t.tasks == s.tasks
    ensures TasksOk(t)
  {
    forall x | x in s.tasks ensures TaskOk(t, x) {
      assert TaskOk(s, x);
      TaskFrame(s, t, x);
    }
  }

  lemma ProtocolKeepsInv(s: State, step: SF.Action)
    requires Inv(s) && Enabled(s, Protocol(step))
    ensures Inv(Step(s, Protocol(step)))
  {
    Safe.StepKeepsInv(s.sf, step);
    Env.StepKeeps(s.sf, step);
    ProtocolFrame(s, Step(s, Protocol(step)), step.c);
  }

  lemma ProtocolFrame(s: State, t: State, c: TaskId)
    requires Inv(s) && SF.Inv(t.sf) && Env.Keeps(s.sf, t.sf) && c in s.tasks
    requires t.tasks == s.tasks && t.pool == s.pool && t.hot == s.hot && t.pending == s.pending && t.cold == s.cold
    ensures Inv(t)
  {
    InvParts(s);
    StoresFrame(s, t);
    ProtocolTasks(s, t);
    BuffersMove(s, t, c, None);
    InvParts(t);
  }

  // ---------------------------------------------------------------- runs

  lemma StepKeepsInv(s: State, a: Action)
    requires Inv(s) && Enabled(s, a)
    ensures Inv(Step(s, a))
  {
    match a
    case Request(t, header, key) => RequestKeepsInv(s, t, header, key);
    case Job(t, chunk) => JobKeepsInv(s, t, chunk);
    case Look(t) => LookKeepsInv(s, t);
    case ReadCold(t, addr) => ReadColdKeepsInv(s, t, addr);
    case ReadFails(t) => ReadFailsKeepsInv(s, t);
    case Acquire(t, buf) => AcquireKeepsInv(s, t, buf);
    case Protocol(step) => ProtocolKeepsInv(s, step);
    case Return(t, addr) => ReturnKeepsInv(s, t, addr);
    case Store(t) => StoreKeepsInv(s, t);
    case ColdWrite(i) => ColdKeepsInv(s, a);
    case ColdFail(i) => ColdKeepsInv(s, a);
    case Write(t) => WriteKeepsInv(s, t);
    case Disconnect(t, n) => DisconnectKeepsInv(s, t, n);
  }
}
