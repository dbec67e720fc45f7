# A verified model of the predictive range proxy

The proxy serves HTTP byte ranges of immutable objects. It splits each object into 4 MiB chunks and looks for a chunk
in a 256-shard RAM cache, in a disk cache, and at last in an S3 backend, where concurrent fetches of one chunk are
merged into one GET. A predictor watches each object's reads and lets workers fetch ahead of sequential readers. The
bench tool generates synthetic files and range requests.

The project has three layers.

* **Values.** What each component computes, as functions: the LRU lists and a closed form for them (`LruSpec`,
  `HotSpec`), the FNV hashes (`Fnv`), cold paths (`ColdPath`), Range headers (`Decimal`, `RangeHeader`,
  `RangeGrammar`), slices of chunks (`Assembly`), the predictor (`Predictor`, `ContiguousReader`), one request after
  another while background writes complete one by one (`Sequential`, `SequentialRequests`, `Serving`,
  `TrackedReads`), synthetic content (`Synth`).
* **Code.** The classes and loops as the source has them, each proved against those functions: `HotCacheImpl`,
  `HandlerImpl`, `BackendImpl`, `BufferPoolImpl`, `ColdCacheImpl`, `PrefetchImpl`, and the methods of `Fnv`,
  `Assembly`, `Synth` and `Workload`.
* **Concurrency.** Labelled transition systems whose actions are the source's lock-protected blocks, channel
  operations and answers from outside, interleaved arbitrarily: the single-flight fetch (`SingleFlight` with `...Env`,
  `...Safety`, `...Termination`, `...Counts`), the proxy around it (`System` with `...Safety`, `...Theorems`,
  `...NoLoss`, `...Memory`, `...Recency`, `...Termination`, `...Failures`), predictor, queue and workers (`Prefetch`),
  both of these joined (`WholeProxy`, `WholeTermination`), the writes of one chunk (`ColdWrites`), and the lookups of
  one size (`SizeLookups`). Byte arrays have addresses, so that aliasing and recycled buffers are part of the state.

The main results, and where the code and its descriptions part:

* In every interleaving of handlers, workers, fetches, evictions and disk writes, what a client has received, even if
  it left in the middle of a slice, is a prefix of the range its header asked for, and a completed body is exactly that
  range (`SystemTheorems.EveryResponseIsTheRange`; with the predictor `WholeProxy.ResponsesAreTheRanges`).
* This takes a background write for one step, and that is right as long as the writes of one chunk do not overlap
  (`ColdWrites.OneByOneIsAtomic`). They share a temporary name, though, and they can overlap
  (`SequentialRequests.WritesCanOverlap`): then a rename can show readers an empty file
  (`ColdWrites.OverlapShowsNothing`). `ColdWrites.RenameShowsChunkIff` says exactly when it shows the whole chunk.
* On every such run the RAM cache holds at most its capacity, or one full chunk per shard if that is more
  (`SystemMemory.MemoryIsBounded`). A shard's byte counter does exceed its share, exactly while its first entry alone
  is too large for it (`SystemMemory.ShardFitsIff`): with the default of 512 MiB every full chunk puts its shard at
  twice its share (`HotSpec.DefaultShardOverflowsIff`, `HotSpec.OneChunkOverflowsDefault`).
* On every such run each shard's list is sorted by last use, and an entry leaves only for want of room
  (`SystemRecency.RecentFirst`, `SystemRecency.EvictedForRoom`). With full chunks a chunk stays hot exactly if nothing
  else used its shard, or the capacity has 1 GiB for it and for each distinct rival since
  (`HotSpec.StaysHotInBytes`).
* Nobody fails because of somebody else: over every run, a call that is not cancelled and whose own GETs do not fail
  returns no error, and a response whose client stays and whose call is so spared is complete when the proxy has come
  to rest (`SystemFailures.ErrorsAreOnesOwn`, `SystemFailures.UntroubledIsServed`).
* And it does come to rest: without new requests every run of the proxy and its predictor ends, within an explicit
  number of moves, the jobs that its own reads start included; then all responses and jobs are done, no write is
  pending, and each read that started a prefetch has led to lookAhead jobs, dropped, skipped, failed or completed
  (`WholeTermination.RunsAreFinite`, `WholeTermination.RestMeansDone`).
* The predictor's velocity is, over every history, an explicit weighted sum of the rates of the reads that continued
  the one before (`Predictor.VelocityIs`). So `Predictor.ArmsIff` says exactly which reads start a prefetch, and
  `Predictor.JumpedReaderArmsIff` when a reader who has sought starts one again. The jobs are for the next chunks,
  nearest first (`Prefetch.SplitAfterRead`, `WholeProxy.JobsFollowStreaks`), and every read that the predictor learns of
  was served (`WholeProxy.EveryReadWasServed`).
* A larger RAM cache never has fewer hits, for chunks of any sizes (`HotSpec.MoreMemoryNeverHurts`). With full-size
  chunks, though, every capacity below two chunks per shard gives the very same cache: the change from 512 MiB to
  1 GiB that configs/proxy.docker.yaml:13-15 argues for changes neither contents nor hits
  (`HotSpec.BelowTwoChunksAllAlike`).
* For one request after another, `Sequential.FetchedOnceIff` says exactly when no chunk is fetched twice, for all
  true chunks on the disk at the start, all requests, all outcomes of disk reads, and all orders and timings in which
  single background writes complete, in terms of that disk and the LRU lists alone. "If pending writes complete
  between requests" is not enough: one request may evict a chunk and ask for it again while its write is pending
  (`SequentialRequests.DrainingBetweenRequestsIsNotEnough` builds the requests, for any object of 2 GiB and any
  capacity below two chunks per shard, 1 GiB included). It is enough if the disk can be read and no request touches a
  shard twice, as no request within an aligned GiB does (`SequentialRequests.SpreadRequestsFetchOnce`,
  `SequentialRequests.BlockRequestsFetchOnce`).
* On digit-only single ranges the answer is the one of section 14.1.2 of RFC 9110 if and only if the numbers fit a
  signed 64-bit integer or nothing is selected anyway (`RangeHeader.AgreesIff`). Beyond the standard's grammar exactly
  the ranges with signs that `strconv` understands are accepted, such as `bytes=+0-+5` and `bytes=0--0`
  (`RangeGrammar.AcceptedIff`, `RangeGrammar.AcceptedInGrammarIff`).

## Model

| member | source | states |
|---|---|---|
| SingleFlightSafety.StepKeepsInv | internal/proxy/backend.go:111-155 | every action of any caller (attach, wake, give up, cancel, GET answered or failed, unpublish, close) keeps the protocol's invariant, from any state that has it |
| SingleFlightSafety.InflightIffOneLeader | internal/proxy/backend.go:115-121 | a key is in the inflight map iff some caller is between publish and unpublish for it, and there is only one such caller |
| SingleFlightSafety.WaiterReceivesTheChunk | internal/proxy/backend.go:126-133 | a waiter that finds done closed and no error always finds data, which is exactly the chunk and is not its own buffer, and returns with the chunk in its buffer |
| SingleFlightSafety.SuccessMeansTheChunk | internal/proxy/backend.go:111-155 | over every run, a call that returned without an error, as leader or as waiter, has its chunk in its buffer |
| SingleFlightSafety.CopiesAreStable | internal/proxy/backend.go:147-150 | a leader's copy is nobody's borrowed buffer and no action of anyone changes it |
| SingleFlightSafety.CopyIffAwaited | internal/proxy/backend.go:145-153 | unpublishing makes the copy exactly when the GET succeeded and somebody has joined; no one waiting goes without, and nobody can join afterwards |
| SingleFlightSafety.CancelledWaitersLeave | internal/proxy/backend.go:126-137 | over every run a waiter whose context ended waits on the flight it has or returns; it joins and leads no other |
| SingleFlightTermination.MeasureDrops | internal/proxy/backend.go:114-155 | every action lowers one well-founded measure, the retry of a waiter included |
| SingleFlightTermination.RunsAreFinite | internal/proxy/backend.go:114-155 | every run of N callers has fewer than (N + 1)(6N + 1) actions |
| SingleFlightTermination.NeverStuck | internal/proxy/backend.go:126-139 | while some call has not returned, some action other than a cancellation is possible: no waiter is left on a flight that nobody closes |
| SingleFlightTermination.AtMostOneGetPerCaller | internal/proxy/backend.go:134-141 | over every run, the flights of a key are at most as many as its callers, each caller leads at most one, and waits on at most N - 1 failed ones |
| SingleFlightCounts.CopyIffJoined | internal/proxy/backend.go:123-150 | over every run a leader copies the bytes out iff its GET succeeded and some caller has joined its flight |
| SingleFlightCounts.WaitersAreJoins | internal/proxy/backend.go:123 | the counter of waiters is the number of callers that joined the flight in the course of the run |
| SingleFlightCounts.RetriesAreFew | internal/proxy/backend.go:134-138 | over every run a caller goes round the loop at most as often as its key has other callers |
| SingleFlightEnv.StepKeeps | internal/proxy/backend.go:111-155 | a protocol action changes no label and no length of an array, no labelled array at all, and nobody's buffer or key |
| BackendImpl.ServedIsTheChunk | internal/proxy/backend.go:157-166 | whoever answers the header that is sent, by the rules of the proxy's own parser, sends exactly the chunk, a short last one included |
| BackendImpl.Backend.FetchChunk | internal/proxy/backend.go:157-177 | an answered GET leaves the chunk at the start of the buffer and the rest as it was, and returns the chunk's length |
| BackendImpl.Backend.ObjectSize | internal/proxy/backend.go:180-194 | the size is always the true one; a remembered size costs no HEAD, a failed HEAD is not remembered, and of callers one after the other only the first successful one has a HEAD answered |
| SizeLookups.LookupsAreTrue | internal/proxy/backend.go:180-194 | however lookups interleave, every size returned is the true one, and no more HEADs are answered than callers looked before an answer was stored |
| SizeLookups.StoredEndsHeads | internal/proxy/backend.go:181-183 | once an answer is stored, no caller that looks later sends a HEAD |
| SizeLookups.TwoHeadsAtOnce | internal/proxy/backend.go:180-194 | two first lookups at once can both have their HEAD answered |
| BufferPoolImpl.BufferPool.Get | internal/cache/pool.go:22-26 | the buffer has the length of a chunk whatever its last user left, was not lent to anyone, and shares no bytes with any that is |
| BufferPoolImpl.BufferPool.Put | internal/cache/pool.go:28-30 | the buffer is free again and no longer lent; free and lent buffers stay apart |
| LruSpec.ClosedForm | internal/cache/lru.go:51-91 | after any demand trace, for any capacity and any entry sizes, a shard holds exactly the longest prefix of the recency order that fits, or the head alone |
| LruSpec.Inclusion | internal/cache/lru.go:67-91 | the contents of a smaller shard are always a prefix, in recency order, of those of a larger one: no Belady anomaly with variable sizes and oversized entries |
| LruSpec.ShardBound | internal/cache/lru.go:83-90 | after any demand trace a shard is within its capacity or holds at most one entry |
| LruSpec.FitsIff | internal/cache/lru.go:74-90 | after any demand trace a shard's byte counter is within its capacity iff the entry used last is by itself |
| LruSpec.Residency | internal/cache/lru.go:60 | an entry is still there iff nothing else touched the shard since its last use, or it fits together with the distinct keys touched since |
| LruSpec.RecencyBytes | internal/cache/lru.go:83-90 | the bytes of the recency list are those of the distinct keys of the trace, each counted once |
| LruSpec.AccessOfFit | internal/cache/lru.go:51-91 | one access commutes with cutting the recency list down to what fits |
| LruSpec.GetIs | internal/cache/lru.go:51-65 | a Get puts the entry in front and leaves the others in their order |
| LruSpec.OverwriteIs | internal/cache/lru.go:74-81 | a Put of a present key puts the new entry in front of the others, in their order, and evicts nothing |
| LruSpec.InsertIs | internal/cache/lru.go:83-90 | a Put of an absent key puts it in front of the longest beginning of the list that fits beside it, and hands over the rest, last one first |
| HotSpec.ShardSeesItsOwn | internal/cache/lru.go:105-107 | over every trace a shard's contents depend only on the accesses that hash to it |
| HotSpec.LargerHoldsMore | internal/cache/lru.go:37-49 | after any trace, whatever is hot at a smaller total capacity is hot at a larger one |
| HotSpec.MoreMemoryNeverHurts | internal/cache/lru.go:37-91 | raising ram_capacity_bytes never lowers the number of hits of a trace |
| HotSpec.HitsAre | internal/cache/lru.go:51-65 | the hits of a trace are the positions whose chunk was hot when it was asked for |
| HotSpec.StaysHotIff | internal/cache/lru.go:51-91 | exactly when a chunk is still hot: no other chunk of its shard was used since, or it and the distinct ones used since fit the shard's share of the capacity |
| HotSpec.StaysHotInBytes | internal/cache/lru.go:37-91 | with full chunks: a chunk is still hot iff no other chunk of its shard was used since, or 256 * 4 MiB * (distinct ones used since + 1) is within ram_capacity_bytes |
| HotSpec.ShareOfCapacity | internal/cache/lru.go:38-39 | 256 shares are within the capacity and 256 shares of one byte more are not; for a negative capacity the quotient is cut off toward zero |
| HotSpec.BlockScanStaysHot | configs/proxy.docker.yaml:13-15 | scans within one aligned block of 256 chunks of an object evict nothing, at any capacity |
| HotSpec.BelowTwoChunksAllAlike | configs/proxy.docker.yaml:13-15 | with full-size chunks all capacities below 2 GiB, which is two chunks per shard, give the same contents and the same hits |
| HotSpec.MemoryBound | internal/cache/lru.go:83-90 | after any demand trace of chunks the cache holds at most the larger of its capacity and one full chunk per shard; for interleaved Gets and Puts see SystemMemory.MemoryIsBounded |
| HotSpec.DefaultShardOverflowsIff | configs/proxy.docker.yaml:13-16 | at 512 MiB a shard is over its capacity exactly when the chunk used last on it is larger than 2 MiB |
| HotSpec.OneChunkOverflowsDefault | configs/proxy.docker.yaml:13-16 | at 512 MiB one full chunk leaves its shard at 4 MiB, twice its capacity |
| HotSpec.PutMembers | internal/cache/lru.go:83-121 | Put keeps every entry of another key or hands it to onEvict, and hands over only entries that were there |
| HotCacheImpl.Shard.Get | internal/cache/lru.go:51-65 | found iff present, with the entry's data, moved to the front of the list; map, list and byte counter stay in step |
| HotCacheImpl.Shard.EvictTail | internal/cache/lru.go:109-121 | exactly the least recently used entry goes, and is handed to onEvict; an empty shard is left alone |
| HotCacheImpl.Shard.MakeRoom | internal/cache/lru.go:83-85 | the eviction loop keeps the longest prefix that leaves room, or nothing, and hands over the rest, least recently used first |
| HotCacheImpl.Shard.Overwrite | internal/cache/lru.go:74-81 | a present key gets the new data at the front, and nothing is evicted |
| HotCacheImpl.Shard.Put | internal/cache/lru.go:67-91 | the contents, the victims and the order of the onEvict calls are those of the LRU lists; map, list and byte counter stay in step |
| HotCacheImpl.HotCache.constructor | internal/cache/lru.go:37-49 | 256 distinct empty shards, each with the largest capacity of which 256 are within the capacity given, whatever that is |
| HotCacheImpl.HotCache.Get | internal/cache/lru.go:51-65 | only the key's shard moves; exactly one of hits and misses goes up |
| HotCacheImpl.HotCache.Put | internal/cache/lru.go:67-91 | only the key's shard moves and only its victims are handed over |
| Fnv.Fnv1aHash32 | internal/cache/lru.go:123-140 | the loops compute the fold of the hash step over the key's bytes and then the index, low byte first, on 32-bit words |
| Fnv.Fnv1aHash64 | internal/cache/disk.go:67-77 | the loop computes the fold of the 64-bit hash step over the key's bytes |
| Fnv.Hash32Is | internal/cache/lru.go:123-140 | that fold is 32-bit FNV-1a, first byte first, from the published offset basis with the published prime, over the key and the eight bytes of weights 1, 256, 256^2, ... of the index; the shard is its remainder by 256 |
| Fnv.XorBits | internal/cache/lru.go:130 | the exclusive or of the model has each bit set iff it differs in the two arguments |
| ColdPath.Hash64Is | internal/cache/disk.go:67-77 | the hash of an object key is 64-bit FNV-1a from the published offset basis with the published prime |
| Fnv.BlockPermutesShards | internal/cache/lru.go:123-140 | every aligned block of 256 chunk indices of every object has exactly one chunk on each shard, found by undoing the hash |
| Fnv.ConsecutiveChunksSpread | internal/cache/lru.go:105-107 | any n consecutive chunks put at most ceil(n / 256) + 1 on one shard, a whole aligned block exactly one |
| Fnv.ShardInBlock | internal/cache/lru.go:128-138 | the shard of a chunk is the key's hash state, one step on the low index byte, then the seven upper bytes |
| ColdPath.StepInverts | internal/cache/disk.go:73-74 | every step of the 64-bit hash is undone by multiplying with the prime's inverse and repeating the exclusive or |
| ColdPath.OneByteApart | internal/cache/disk.go:67-77 | object keys that differ in exactly one byte position never share a hash, hence no directory |
| ColdPath.SameFileIff | internal/cache/disk.go:54-65 | two chunks have the same path iff their objects' hashes are equal and their indices are equal |
| ColdPath.PathIs | internal/cache/disk.go:54-65 | the path is base directory, first two digits, all 16 digits, index; the digits are the hexadecimal ones of the 64-bit hash, most significant first |
| ColdPath.TmpIsNoChunk | internal/cache/disk.go:27 | no temporary path is the path of any chunk |
| ColdCacheImpl.ColdCache.Put | internal/cache/disk.go:22-36 | a Put that succeeds is seen by exactly the chunks with the same file; one that fails at any point is seen by none |
| ColdCacheImpl.ColdCache.Get | internal/cache/disk.go:38-44 | found iff the chunk's file exists and can be read, with its content |
| ColdCacheImpl.ColdCache.Delete | internal/cache/disk.go:46-52 | the chunk is gone, other files stay, and deleting what is not there is no error |
| ColdCacheImpl.PutIsMapUpdate | internal/cache/disk.go:22-36 | on objects whose hashes differ the disk is a map from chunk to bytes, and Put updates one entry |
| ColdCacheImpl.InterruptedPutIsInvisible | internal/cache/disk.go:27-31 | as long as a Put has only touched its temporary file, with whatever content, every Get finds what it found before |
| ColdWrites.OneByOneIsAtomic | internal/cache/disk.go:22-36 | over every run of opens, partial writes, renames and failures in which the writes of a chunk do not overlap, readers find what there was before, or the whole chunk from the first rename on |
| ColdWrites.OverlapShowsNothing | internal/cache/disk.go:27-31 | two overlapping writes of a chunk after which readers find an empty file |
| ColdWrites.RenameShowsChunkIff | internal/cache/disk.go:27-31 | over every run, overlapping writes included, a rename shows the whole chunk iff all of it but zeros before its end was written since the temporary file was last opened |
| RangeHeader.ResolvedIsInside | internal/proxy/handler.go:212-231 | for every header text and size, an accepted range lies inside the object and is not empty |
| RangeHeader.AcceptedStartsWithBytes | internal/proxy/handler.go:235-239 | whatever is accepted begins with `bytes=` |
| RangeHeader.AgreesIff | internal/proxy/handler.go:212-268 | on the header `bytes=` a `-` b, for all digit strings a and b that are not both empty, the answer selects exactly what section 14.1.2 of RFC 9110 selects, and is refused iff that is nothing, if and only if the numbers fit 64 bits or nothing is selected |
| RangeHeader.TooLongIsRefused | internal/proxy/handler.go:258-262 | a last position beyond 64 bits is refused although the standard selects up to the end |
| RangeGrammar.AcceptedIff | internal/proxy/handler.go:235-268 | every header: it parses iff it is `bytes=`, a text without a hyphen, a hyphen and a text, each empty or digits that fit 64 bits, alone, after a plus, or all zero after a minus, not both empty, and in order |
| RangeGrammar.AcceptedInGrammarIff | internal/proxy/handler.go:235-268 | an accepted header is in the grammar of section 14.1.1 of RFC 9110 iff neither part begins with a sign |
| RangeGrammar.SignsAreAccepted | internal/proxy/handler.go:243-262 | plus signs in all three forms, and minus zero as a last position, are accepted |
| RangeHeader.MultiRangeIsRefused | internal/proxy/handler.go:235-268 | a header with a comma anywhere is never accepted |
| RangeHeader.RoundTrip | internal/proxy/handler.go:235-268 | for all 64-bit a <= b the printed bounded, open and suffix ranges parse back to their numbers |
| RangeHeader.PrintedBounded | internal/proxy/handler.go:212-231 | `bytes=a-b` with printed 64-bit numbers is answered with a and the smaller of b and the last position, and refused iff a is beyond the end or b before a |
| RangeHeader.PrintedOpen | internal/proxy/handler.go:224-231 | `bytes=a-` reaches to the end, and is refused iff a is beyond it |
| RangeHeader.PrintedSuffix | internal/proxy/handler.go:217-223 | `bytes=-b` is the last b positions or all of them, and is refused iff b or the size is 0 |
| Decimal.PrintIsTheNumeral | internal/proxy/backend.go:158-160 | what is printed for a number is the one digit string without a leading zero that has its value |
| Decimal.ValueConcat | internal/proxy/handler.go:243-262 | digits are worth what `strconv.ParseInt` makes of them: of two joined texts the left one counts ten times for each character of the right one |
| Decimal.ParsePrinted | internal/proxy/handler.go:243-262 | a printed number is read back, alone or after a plus, iff it is below 2^63, after a minus iff it is at most that |
| RangeHeader.ChunkHeaderSelectsTheChunk | internal/proxy/backend.go:158-160 | `bytes=` first `-` first + 4194303, as fetchChunk prints it, resolves to exactly the chunk's positions |
| Assembly.SliceIsNext | internal/proxy/handler.go:122-136 | each chunk's slice is legal and not empty, so the early break is not taken, and carries on where the slices before ended |
| Assembly.WriteBody | internal/proxy/handler.go:119-144 | for all sizes and ranges the slice loop writes exactly the range, counts its bytes, and does not break early; a writer that fails, in a slice or between two, has taken the first bytes of it |
| SystemSafety.StepKeepsInv | internal/proxy/handler.go:160-188 | every action of handlers, workers, fetches, evictions and background writes keeps all hot, cold, pending, shared and delivered bytes equal to the true chunks, and every buffer with one holder |
| SystemSafety.ReturnKeepsInv | internal/proxy/handler.go:175-187 | reading the fetched bytes out of the buffer and giving it back keeps that invariant, for leaders, joined handlers and failures |
| SystemSafety.StoredOk | internal/cache/lru.go:109-121 | what Put keeps and what it hands to the background writes are right entries |
| SystemTheorems.EveryResponseIsTheRange | internal/proxy/handler.go:81-144 | over every run, what a client received of a response, also one that failed within a slice, is a prefix of the range that its header asked for, and a completed body is exactly that range |
| SystemTheorems.EveryResponseIsWhatTheStandardSelects | internal/proxy/handler.go:81-144 | a completed response to a digit-only header that fits 64 bits carries exactly the positions that section 14.1.2 of RFC 9110 selects |
| SystemTheorems.BuffersAreSeparate | internal/engine/prefetch.go:114-130 | no pooled buffer, and none that a fetching or storing task has, is an array of the hot cache, of a pending write, of a flight's data or of a response |
| SystemTheorems.EveryCopyIsTrue | internal/proxy/handler.go:160-188 | every array of the hot cache, of a pending write and of a flight's data, and every file, has exactly the bytes of its chunk |
| SystemTheorems.BuffersAreExclusive | internal/proxy/handler.go:172-173 | a buffer that a task has is not in the pool and no other task has it |
| SystemTheorems.AtMostOneGetOutstanding | internal/engine/prefetch.go:117 | handlers and workers together have at most one GET outstanding for a chunk |
| SystemTheorems.NeverStuck | internal/proxy/handler.go:81-144 | no deadlock and nobody forgotten: for each unfinished response or job there is a possible step of the task, of its fetch, or of the leader that the fetch waits for, which is no cancellation, no client leaving and no failing disk |
| SystemTheorems.WorkersSkipTheDisk | internal/engine/prefetch.go:107-118 | over every run no worker reads the disk: its job goes from memory to the backend |
| SystemTheorems.WhoCaches | internal/proxy/handler.go:172-187 | when a fetch returns, a worker goes on to cache the bytes, a handler only if it led the fetch; one that joined, or failed, touches no cache and gives its buffer back |
| SystemTermination.RunsAreFinite | internal/proxy/handler.go:81-188 | from any reachable state every run without new requests and jobs, of all tasks, fetches, retries, cancellations, evictions and background writes, has at most Work steps |
| SystemTermination.RestMeansDone | internal/proxy/handler.go:81-188 | a state in which nothing but new requests and jobs is possible has every response and job finished or failed, no call open and no write pending |
| SystemFailures.ErrorsAreOnesOwn | internal/proxy/backend.go:126-141 | over every run, a call that was not cancelled and whose own GETs did not fail returns no error, whatever became of the flights it waited on |
| SystemFailures.UntroubledIsServed | internal/proxy/handler.go:81-188 | over every run, a response whose client stays, and whose own call is neither cancelled nor has a GET that fails, is complete once the proxy is at rest, whatever happens to the others |
| SystemMemory.MemoryIsBounded | internal/cache/lru.go:67-91 | over every run, with concurrent misses and Puts of the same chunks, the hot cache holds at most the larger of its capacity and one full chunk per shard |
| SystemMemory.ShardFitsIff | internal/cache/lru.go:74-90 | over every run a shard's byte counter is within its capacity iff it is empty or its first entry is by itself |
| SystemMemory.ShardsStayOrdered | internal/cache/lru.go:105-107 | over every run no shard has a key twice and each key is on its own shard |
| SystemRecency.RecentFirst | internal/cache/lru.go:51-91 | over every run each shard's list is sorted by last use, the latest first, whichever handlers and workers looked chunks up or stored them |
| SystemRecency.EvictedForRoom | internal/cache/lru.go:83-90 | over every run an entry leaves memory only when a chunk that is not there is stored and 256 times the bytes of it, of the entries in front of it and of that chunk exceed the capacity |
| SystemNoLoss.NoFetchedChunkIsLost | cmd/proxy/main.go:45-55 | over every run in which no background write fails, each chunk that a GET returned is hot, on the disk, in a pending write, or carried by a task that will cache it |
| SystemNoLoss.FetchedIsGotten | internal/proxy/handler.go:175 | the history of fetched chunks is that of the successful GETs of the run |
| SystemNoLoss.NoNeedlessRefetch | internal/proxy/handler.go:161-170 | a handler that misses memory for a chunk fetched before, which nobody carries and no pending write holds, finds it on the disk whatever the others do meanwhile, unless reading the disk fails |
| SystemNoLoss.StoredKeeps | internal/cache/lru.go:74-90 | after Put each chunk that was hot, and the new one, is hot or among the victims |
| Sequential.RunIsLru | internal/proxy/handler.go:160-188 | the hot cache of any run of requests is the LRU cache of its trace, and everything stored is the true chunk |
| Sequential.NothingLost | internal/proxy/handler.go:160-188 | a chunk is hot, on the disk or in a pending write iff it was asked for or on the disk at the start; the backend delivered only what was asked for, and of that at least what was not on the disk |
| Sequential.FetchedOnceIff | internal/proxy/handler.go:160-188 | for every disk of true chunks at the start, all requests, all outcomes of disk reads, and background writes that complete one by one at any time and in any order: no chunk is fetched twice iff none is asked for twice while it is neither hot nor readable on the disk, where it is if it was there at the start or if a write of it completed while it had been asked for and was not hot |
| Sequential.MissIsBackend | internal/proxy/handler.go:161-175 | as long as no chunk was fetched twice, a request goes to the backend iff that condition, on events, disk and LRU lists alone, calls it a miss |
| Sequential.LandedIs | cmd/proxy/main.go:46-54 | a background write that completes is one of those of its entry, and takes nothing else to the disk |
| SequentialRequests.CalmRunsFetchOnce | cmd/proxy/main.go:45-55 | if whenever a chunk is asked for its shard was left alone since some moment without pending writes, and the disk can be read, no chunk is fetched twice, at any capacity |
| SequentialRequests.DrainedBetweenChunksFetchesOnce | cmd/proxy/main.go:45-55 | if no write is pending whenever a chunk is asked for, and the disk can be read, no chunk is fetched twice, at any capacity |
| SequentialRequests.SpreadRequestsFetchOnce | cmd/proxy/main.go:45-55 | if no write is pending when a request begins, the disk can be read, and no request touches a shard twice, no chunk is fetched twice, whenever writes complete |
| SequentialRequests.BlockRequestsFetchOnce | cmd/proxy/main.go:45-55 | in particular if each request is for chunks of one aligned block of 256 |
| SequentialRequests.DrainingBetweenRequestsIsNotEnough | cmd/proxy/main.go:45-55 | two requests for any object of 2 GiB that fetch a chunk twice, unless it was on the disk before, although no write is pending at the beginning of either, at every capacity below two chunks per shard |
| SequentialRequests.WritesCanOverlap | cmd/proxy/main.go:45-55 | two chunks of one shard that do not fit together, asked for in turn, leave two writes of the same chunk under way at once |
| HandlerImpl.Handler.Cache | cmd/proxy/main.go:45-57 | Put appends exactly its victims, in order, to the pending background writes |
| HandlerImpl.Handler.CompleteWrite | cmd/proxy/main.go:46-54 | any one of the pending writes completes: it leaves the list, the others stay in order, and exactly its chunk on the disk becomes its bytes |
| HandlerImpl.Handler.constructor | cmd/proxy/main.go:40-57 | a handler starts with an empty memory and whatever true chunks the disk holds from earlier |
| HandlerImpl.Handler.ResolveChunk | internal/proxy/handler.go:160-188 | hot if it is in memory, else cold if it is on the disk and can be read, else backend; fails iff it would be backend and that does not deliver; returns the true bytes and leaves the caches as specified; a failure changes nothing |
| HandlerImpl.Handler.ResolveBytes | internal/proxy/handler.go:86-112 | if a chunk cannot be had, the 502 is the right answer; else the bytes of the range with the slowest tier's name are |
| HandlerImpl.Handler.ResolveRange | internal/proxy/handler.go:91-112 | whatever writes complete before each chunk: all chunks of the range, in order, or none past the first that fails; the slowest tier; the predictor is told of each resolved chunk in order |
| HandlerImpl.Handler.ServeRange | internal/proxy/handler.go:66-144 | 502 without a size, 416 for an unsatisfiable range; else exactly the range's bytes, as far as the client takes them, with tier backend if any chunk came from there, else cold if any came from the disk, else hot, and then each chunk was hot, readable or delivered when its turn came, or 502, and then one was not; the predictor is told of every chunk that was resolved |
| Serving.RecordedIsTheRange | internal/proxy/handler.go:111 | the log of Tracker.Record grows by exactly the chunks of the request, in order |
| Serving.SlowestIsTheMaximum | internal/proxy/handler.go:20-22 | the slowest tier is backend if any chunk came from there, else inflight, cold, hot in this order |
| Serving.RunGoesOn | internal/proxy/handler.go:91-112 | what a handler does from the state of a run on continues that run, so what holds of runs holds of the handler |
| Serving.SessionIsServed | internal/proxy/handler.go:91-112 | a handler that serves a request, with writes completing before any of its chunks and after it, is in the state that the fetch-once results speak about, and its steps are a serving of the request |
| Predictor.StreakIsTheRun | internal/engine/predictor.go:40-75 | after any reads streakLen is the length of the longest run of consecutive chunks at increasing times that ends with the last read, repeats collapsed |
| Predictor.VelocityBounds | internal/engine/predictor.go:62-72 | the smoothed velocity lies between 0 and the largest instantaneous rate of the history |
| Predictor.ArmsMeans | internal/engine/predictor.go:77-95 | a read that starts a prefetch ends a run of at least streakThreshold consecutive chunks, some two of which in the history were read at the threshold rate |
| Predictor.VelocityIs | internal/engine/predictor.go:58-75 | for every history the velocity is a weighted sum of the rates of the reads that continued the one before: 0.3 of each, but all of the first, times 0.7 for each later read that continues and 0.5 for each that does not, repeats collapsed |
| Predictor.CollapsedSnoc | internal/engine/predictor.go:53-56 | a read drops out of the history iff it is of the same chunk as the read just before it |
| Predictor.ArmsIff | internal/engine/predictor.go:40-95 | exactly when a read starts a prefetch: it is neither the first nor a repeat, it ends a long enough run, and that weighted sum is at the threshold |
| Predictor.JumpsHalve | internal/engine/predictor.go:70-73 | n jumps in a row take the velocity from v to v / 2^n and leave a streak of 1 |
| Predictor.JumpedReaderArmsIff | internal/engine/predictor.go:58-95 | exactly when a reader who jumped at velocity v and then read n chunks steadily at rate r starts a prefetch: n + 1 is at least streakThreshold and r + 0.7^n (v / 2 - r) at the velocity threshold (r, if v is 0) |
| Predictor.JumpDelaysPrefetch | internal/engine/predictor.go:70-73 | for instance chunks 0, 1, 10, 11, 12 at 0, 1, 2, 6 and 10 seconds start none with the thresholds 3 and 0.5 |
| Predictor.SteadyClosedForm | internal/engine/predictor.go:62-70 | at a constant rate r from v > 0 the velocity after n chunks is r + 0.7^n (v - r) |
| Predictor.SteadyReadsAreSteady | internal/engine/predictor.go:59-75 | evenly spaced reads of consecutive chunks take the state through that recurrence and keep the streak |
| Predictor.FastReaderArms | internal/engine/predictor.go:82-83 | a rate r above the threshold v reaches it within 7v / 3(r - v) chunks from any velocity |
| Predictor.SteadyReaderArms | internal/engine/predictor.go:77-95 | a steady reader above the threshold with a long enough streak starts a prefetch from then on |
| Predictor.ReachesIff | internal/engine/predictor.go:62-83 | a steady rate r ever lifts a velocity below the threshold to it iff r exceeds it, or equals it and the velocity was zero |
| ContiguousReader.ContiguousReaderKeepsStreak | internal/engine/predictor.go:52-71 | any split of bytes a .. b into back-to-back ranges leaves a streak of ChunkOf(b) - ChunkOf(a) + 1 |
| TrackedReads.AnsweredIsLogged | internal/proxy/handler.go:91-112 | a range that ServeRange answers with its bytes adds to the log what `Logged` says |
| TrackedReads.TrackedIsTouched | internal/proxy/handler.go:91-112 | after back-to-back ranges of an object were served, with ranges of others in between, the tracker was told of exactly the chunks they touch |
| TrackedReads.ServedReaderKeepsStreak | internal/engine/predictor.go:52-71 | so that reader has a streak over every chunk it touched |
| Prefetch.ScheduleSplits | internal/engine/prefetch.go:76-87 | an undisturbed Schedule from chunk s queues as many jobs as there is room for behind the others, the i-th for chunk s + i on 64-bit words, and drops the rest |
| Prefetch.SplitAfterRead | internal/engine/predictor.go:94 | so after a read of chunk c the queued jobs are for c + 1, c + 2, ... on 64-bit words |
| Prefetch.UndisturbedSends | internal/engine/prefetch.go:76-87 | the sends of a Schedule in the interleaved system, if nothing comes between them, do to the queue what Schedule does, from one chunk after the read on |
| Prefetch.StepKeepsInv | internal/engine/prefetch.go:76-131 | records, sends, receives, finished jobs and tracker evictions in any order keep the counts, the tracker states and the provenance of all jobs |
| Prefetch.JobsAreConserved | internal/engine/prefetch.go:76-131 | on every run the queue is within its depth, each send is counted as queued or dropped, the sends and what the Schedules under way still owe are lookAhead for each read that started a prefetch, and each queued job waits, runs, or was skipped, failed or completed |
| Prefetch.EveryJobFollowsAStreak | internal/engine/predictor.go:77-95 | on every run each queued job is for chunk c + d on 64-bit words, 1 <= d <= lookAhead, for some read of c that started a prefetch, at which the last streakThreshold chunks of that object were consecutive and ended with c |
| WholeProxy.StepKeepsInv | internal/proxy/handler.go:91-112 | handlers that tell the tracker of their chunks, Schedules, and workers whose jobs are tasks of the proxy keep the invariants of both sides and of their links |
| WholeProxy.RunsProxy | cmd/proxy/main.go:73-93 | every run with the predictor is a run of the proxy, so its theorems over all runs hold with the predictor |
| WholeProxy.RunsPrefetch | cmd/proxy/main.go:73-93 | ... and a run of predictor and queue, so their laws hold with the proxy |
| WholeProxy.ResponsesAreTheRanges | internal/proxy/handler.go:81-144 | with the predictor, too, every completed response is the range asked for |
| WholeProxy.JobsFollowStreaks | internal/engine/predictor.go:77-95 | every job of the workers is for chunk c + d on 64-bit words, 1 <= d <= lookAhead, for some read of c, by the proxy itself, that ended a streak and started a prefetch |
| WholeProxy.EveryReadWasServed | internal/proxy/handler.go:91-112 | over every run each read that the predictor knows of is of a chunk of some request's range, which its handler had resolved by then |
| WholeProxy.WorkersDoTheirJobs | internal/engine/prefetch.go:93-105 | over every run what a busy worker fetches is the chunk of the job it took |
| WholeTermination.RunsAreFinite | internal/engine/prefetch.go:76-131 | without new requests every run has at most Bound moves, the jobs that the handlers' own reads start included |
| WholeTermination.RestMeansDone | internal/engine/prefetch.go:76-131 | where such a run ends, responses and jobs are done, no write is pending, queue and workers are empty, the tracker knows of every resolved chunk, and dropped, skipped, failed and completed jobs are lookAhead for each read that started a prefetch |
| PrefetchImpl.Prefetcher.Schedule | internal/engine/prefetch.go:76-87 | the loop queues the jobs of the chunks start, start + 1, ... on 64-bit words as far as there is room, drops the rest, counts both, and the gauge is the queue's length |
| PrefetchImpl.Prefetcher.Receive | internal/engine/prefetch.go:97-101 | a worker gets the oldest job and the gauge follows |
| PrefetchImpl.Prefetcher.FetchAndCache | internal/engine/prefetch.go:107-131 | skipped iff hot; a failed fetch changes no cache; a fetched chunk is cached; one counter goes up |
| PrefetchImpl.VelocityTracker.Record | internal/engine/predictor.go:40-96 | only this object's state moves, as the closed forms above describe it; iff the read triggers, jobs for the chunks after the one read are queued, nearest first, as far as there is room |
| PrefetchImpl.VelocityTracker.Evict | internal/engine/predictor.go:98-102 | only this object's state goes |
| Synth.SplitMixIsBijective | cmd/bench/edu.go:258-263 | splitmix is a bijection of the 64-bit words; its inverse is given |
| Synth.SplitMixIs | cmd/bench/edu.go:258-263 | splitmix in plain numbers: the three constants, the shifts by 30, 27 and 31 bits, words modulo 2^64 |
| Synth.ByteIs | cmd/bench/edu.go:272-279 | byte j of 8-byte block i is the header's as far as that reaches, and past it the byte of weight 256^j of splitmix of the seed exclusive or i |
| Synth.BlocksDiffer | cmd/bench/edu.go:265-282 | two full aligned 8-byte blocks past the header of one file are equal only if they are the same block |
| Synth.ReadsJoin | cmd/bench/edu.go:265-282 | reads of any sizes, one after the other, make up one read of the same content |
| Synth.SynthFile.constructor | cmd/bench/edu.go:241-256 | the seed is the hash of the key and reading starts at 0 |
| Synth.SynthFile.Read | cmd/bench/edu.go:265-282 | fills the buffer with the next bytes of one fixed content, as far as the file goes, leaves the rest of the buffer, and advances by what was read |
| Synth.SynthFile.Seek | cmd/bench/edu.go:284-299 | moves to the position asked for; a negative one is refused and moves nothing; an unknown whence moves to the start |
| Workload.Sequential | cmd/bench/workload.go:129-135 | the requests tile the bytes from .. to - 1: in order, no gap, no overlap, full steps but for the last |
| Workload.TilesAreCuts | cmd/bench/workload.go:129-135 | such a tiling is a way to cut the file into back-to-back pieces |
| Workload.RoundDown | cmd/bench/workload.go:112-113 | the viewer lands on the last multiple of the segment size that is not past the target |
| Workload.SequentialKeepsStreak | cmd/bench/workload.go:129-135 | a reader that makes these requests keeps the predictor's streak over every chunk |
| Workload.CapBytes | cmd/bench/workload.go:137-149 | the longest prefix within the cap, but never less than one request |
| Workload.VideoReads | cmd/bench/workload.go:104-118 | whatever the draws, no request is empty or reaches past the end; together they tile the watched bytes from the start, or the opening and then as many bytes from the segment the viewer jumps to as the file has |
| Workload.PdfReads | cmd/bench/workload.go:120-127 | first the trailer, the file's last 64 KiB or all of it, then a tiling of the pages from the start; no request is empty or outside the file iff the file is not empty, since of an empty file no bytes are asked for |

## Left out

- AWS SDK, HTTP, TLS, configuration and metrics: the backend is a map from object to bytes; a GET returns the exact chunk or fails, a HEAD the exact size or fails.
- Truncated bodies: `fetchChunk` takes a short read for the last chunk; the model's backend never cuts a body short.
- Changing objects: neither chunks nor sizes are ever invalidated, so objects are immutable here.
- `proxyFull`, plain HEAD requests and method checks: single branches around library calls.
- SystemSafety.StepKeepsInv: a background disk write is one step; overlapping writes of one chunk, for which this is not right, are the subject of ColdWrites.
- SystemSafety.StepKeepsInv: object sizes are known exactly rather than looked up.
- WholeProxy.StepKeepsInv: a handler need not wait for its call of Tracker.Record, nor for the sends of a Schedule, before its next chunk: a superset of the orders that the code has.
- BackendImpl.Backend.FetchChunk: the overflow of chunk index times chunk size beyond 2^63 is not modelled, because no object has such a chunk; those fetches are among the failing ones.
- HotCacheImpl.Shard.Put: the nodes of the linked list are identified by their keys, so that the map and the list share keys, not nodes; the mutex is a method call that is not interleaved.
- BackendImpl.Backend.ObjectSize: one caller at a time; concurrent lookups are the subject of SizeLookups.
- HandlerImpl.Handler.ServeRange: one request at a time, so no fetch is joined and the tier "inflight" does not occur; concurrent requests are the subject of `System`.
- HandlerImpl.Handler.ServeRange: response headers other than range, size and tier.
- Prefetch.ScheduleSplits: a queue of depth 0 drops every job; the rendezvous of an unbuffered channel with a waiting worker is not modelled.
- Prefetch.StepKeepsInv: Stop, and Schedule after Stop; nothing in the proxy calls VelocityTracker.Evict, so runs that come to rest have no evictions.
- Predictor.SteadyClosedForm: velocities are reals and times arbitrary reals; floating-point rounding and the clock are not modelled.
- ColdPath.SameFileIff: the base directory is taken as already clean, so joining path elements is concatenation; that no two objects' hashes collide is an assumption where it is used.
- Synth.SynthFile.constructor: which header a file kind gets is a parameter, as is the kind of a key.
- Workload.VideoReads: random draws and the fraction of a video that is watched are parameters; session mix, weighted picks and `int64` overflow in the offsets are not modelled.
- eBPF programs, admin pages, dashboard, latency statistics, uploads and deployment files.
