/** The tracker and the prefetcher as they are written, proved against Predictor and Prefetch. */
module PrefetchImpl {
  import opened Basics
  import opened Fnv
  import opened HotSpec
  import opened HotCacheImpl
  import opened Prefetch
  import P = Predictor

  class Prefetcher {
    const queueDepth: nat
    const lookAhead: nat
    var jobs: seq<Job>        // the buffered channel, oldest job first
    var prefetchQueued: nat
    var prefetchDropped: nat
    var queueLength: int      // the gauge
    var errors: nat
    var stored: nat

    ghost predicate Valid()
      reads this
    {
      |jobs| <= queueDepth && queueLength == |jobs|
    }

    function View(): Queue
      reads this
    {
      Queue(jobs, prefetchQueued, prefetchDropped)
    }

    constructor (queueDepth: nat, lookAhead: nat)
      ensures Valid() && View() == Queue([], 0, 0)
      ensures this.queueDepth == queueDepth && this.lookAhead == lookAhead
    {
      this.queueDepth, this.lookAhead := queueDepth, lookAhead;
      jobs, prefetchQueued, prefetchDropped, queueLength, errors, stored := [], 0, 0, 0, 0, 0;
    }

    method Schedule(objectKey: ObjectKey, startChunk: uint64)
      requires Valid()
      modifies `jobs, `prefetchQueued, `prefetchDropped, `queueLength
      ensures Valid() && View() == Offers(old(View()), queueDepth, objectKey, startChunk, lookAhead)
      ensures Split(old(View()), queueDepth, objectKey, startChunk, lookAhead, View())
    {
      ScheduleSplits(View(), queueDepth, objectKey, startChunk, lookAhead);
      for i := 0 to lookAhead
        invariant Valid() && View() == Offers(old(View()), queueDepth, objectKey, startChunk, i)
      {
        var job := Job(objectKey, (startChunk + i) % TWO_64);
        if |jobs| < queueDepth {
          jobs := jobs + [job];
          prefetchQueued := prefetchQueued + 1;
          queueLength := queueLength + 1;
        } else {
          prefetchDropped := prefetchDropped + 1;
        }
      }
    }

    /** A worker receives the oldest job. */
    method Receive() returns (job: Job)
      requires Valid() && jobs != []
      modifies `jobs, `queueLength
      ensures Valid() && old(jobs) == [job] + jobs
    {
      job := jobs[0];
      jobs := jobs[1..];
      queueLength := queueLength - 1;
    }

    /** A worker's job: nothing if the chunk is hot, else one fetch, whose bytes are cached even
        if another caller's request delivered them. Only the hot cache is asked, not the disk. */
    method FetchAndCache(hot: HotCache, job: Job, fetched: Option<bytes>) returns (outcome: Outcome)
      requires hot.Valid()
      modifies `errors, `stored, hot, hot.shards
      ensures hot.Valid()
      ensures var k := ChunkKey(job.objectKey, job.chunkIndex);
              if Resident(old(hot.State()), k) then
                outcome == Skipped && hot.State() == Got(old(hot.State()), k)
              else if fetched.None? then
                outcome == Failed && hot.State() == old(hot.State())
              else
                && outcome == Completed
                && hot.State() == Stored(old(hot.State()), hot.capacityBytes, Node(k, fetched.value))
      ensures errors == old(errors) + (if outcome.Failed? then 1 else 0)
      ensures stored == old(stored) + (if outcome.Completed? then 1 else 0)
    {
      var k := ChunkKey(job.objectKey, job.chunkIndex);
      ghost var was := hot.State();
      assert !Resident(was, k) ==> Got(was, k) == was;
      var _, hit := hot.Get(k);
      if hit {
        return Skipped;
      }
      if fetched.None? {
        errors := errors + 1;
        return Failed;
      }
      hot.Put(k, fetched.value);
      stored := stored + 1;
      return Completed;
    }
  }

  class VelocityTracker {
    const cfg: P.Config
    const prefetcher: Prefetcher
    var states: map<ObjectKey, P.ReadState>

    function StateOf(objectKey: ObjectKey): Option<P.ReadState>
      reads this
    {
      if objectKey in states then Some(states[objectKey]) else None
    }

    constructor (cfg: P.Config, p: Prefetcher)
      ensures this.cfg == cfg && prefetcher == p && states == map[]
    {
      this.cfg, prefetcher, states := cfg, p, map[];
    }

    method Record(objectKey: ObjectKey, chunkIndex: uint64, now: real)
      requires prefetcher.Valid()
      modifies `states, prefetcher
      ensures prefetcher.Valid()
      ensures var st, r := old(StateOf(objectKey)), P.Read(chunkIndex, now);
              && states == old(states)[objectKey := P.Next(st, r)]
              && prefetcher.View() ==
                 if P.Triggers(cfg, st, r)
                 then Offers(old(prefetcher.View()), prefetcher.queueDepth, objectKey, P.Succ(chunkIndex),
                             prefetcher.lookAhead)
                 else old(prefetcher.View())
      ensures P.Triggers(cfg, old(StateOf(objectKey)), P.Read(chunkIndex, now)) ==>
                Split(old(prefetcher.View()), prefetcher.queueDepth, objectKey, chunkIndex + 1, prefetcher.lookAhead,
                      prefetcher.View())
    {
      SplitAfterRead(prefetcher.View(), prefetcher.queueDepth, objectKey, chunkIndex, prefetcher.lookAhead);
      if objectKey !in states {
        states := states[objectKey := P.ReadState(chunkIndex, now, 1, 0.0)];
        return;
      }
      var st := states[objectKey];
      if chunkIndex == st.lastChunkIndex {
        assert states == states[objectKey := st];
        return;
      }
      var isSequential := chunkIndex == (st.lastChunkIndex + 1) % TWO_64;
      var elapsed := now - st.lastReadAt;
      var streakLen, velocityEWMA := st.streakLen, st.velocityEWMA;
      if isSequential && elapsed > 0.0 {
        var instant := 1.0 / elapsed;
        if velocityEWMA == 0.0 {
          velocityEWMA := instant;
        } else {
          velocityEWMA := 0.3 * instant + 0.7 * velocityEWMA;
        }
        streakLen := streakLen + 1;
      } else {
        streakLen := 1;
        velocityEWMA := velocityEWMA * 0.5;
      }
      states := states[objectKey := P.ReadState(chunkIndex, now, streakLen, velocityEWMA)];
      var shouldPrefetch := streakLen >= cfg.streakThreshold && velocityEWMA >= cfg.velocityThreshold;
      if shouldPrefetch {
        prefetcher.Schedule(objectKey, (chunkIndex + 1) % TWO_64);
      }
    }

    method Evict(objectKey: ObjectKey)
      modifies `states
      ensures states == old(states) - {objectKey}
    {
      states := states - {objectKey};
    }
  }
}
