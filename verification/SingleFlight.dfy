/** The single-flight fetch protocol of the backend as a labelled transition system.

    Each block that runs under the backend's mutex, each channel operation and each
    backend response is one atomic action of one caller; any number of callers of any
    keys interleave arbitrarily. Memory is explicit: a caller fetches into a byte
    array that it borrowed, and a leader hands its bytes to waiters in a new array. */
module SingleFlight {
  import opened Basics

  type Addr = nat
  type Caller = nat
  type FlightId = nat

  /** Specification-only label of an array: no action ever branches on it. */
  datatype Tag = Free | Held(holder: Caller) | Data(key: ChunkKey)

  datatype Cell = Cell(content: bytes, tag: Tag)

  // Open: in the inflight map. Unpublished: removed, done not closed yet. Closed: done closed.
  datatype Status = Open | Unpublished | Closed

  datatype Flight = Flight(key: ChunkKey, leader: Caller, status: Status, waiters: nat,
                           data: Option<Addr>, err: bool)

  datatype Phase =
    | Start
    | Waiting(f: FlightId)
    | Leading(f: FlightId)
    | Fetched(f: FlightId, n: nat, ok: bool)
    | Closing(f: FlightId, n: nat, ok: bool)
    | Returned(n: nat, joined: bool, ok: bool)

  // failed is history: the flights this call waited on that ended in an error.
  datatype Call = Call(key: ChunkKey, buf: Addr, cancelled: bool, phase: Phase,
                       failed: set<FlightId>)

  datatype State = State(objects: Store, mem: map<Addr, Cell>,
                         inflight: map<ChunkKey, FlightId>,
                         flights: map<FlightId, Flight>,
                         calls: map<Caller, Call>)

  datatype Action =
    | Attach(c: Caller, f: FlightId)   // f names the new flight if there is none to join
    | Wake(c: Caller)
    | GiveUp(c: Caller)
    | Cancel(c: Caller)
    | GetOk(c: Caller)
    | GetFail(c: Caller, junk: bytes)
    | Unpublish(c: Caller, a: Addr)    // a is the address of the copy, if one is made
    | Close(c: Caller)

  // What one flight becomes when a caller joins it, when it is unpublished, when done is closed.

  function Fresh(key: ChunkKey, leader: Caller): Flight {
    Flight(key, leader, Open, 0, None, false)
  }

  function Joined(f: Flight): Flight {
    f.(waiters := f.waiters + 1)
  }

  function Settled(f: Flight, ok: bool, copy: Addr): Flight {
    f.(status := Unpublished, err := !ok, data := if ok && f.waiters > 0 then Some(copy) else None)
  }

  function Ended(f: Flight): Flight {
    f.(status := Closed)
  }

  predicate Enabled(s: State, a: Action) {
    && a.c in s.calls
    && var call := s.calls[a.c];
       match a
       case Attach(c, f) => call.phase.Start? && f !in s.flights
       case Wake(c) => call.phase.Waiting? && call.phase.f in s.flights
                       && s.flights[call.phase.f].status.Closed?
       case GiveUp(c) => call.phase.Waiting? && call.cancelled
       case Cancel(c) => !call.cancelled
       case GetOk(c) => call.phase.Leading? && HasChunk(s.objects, call.key)
       case GetFail(c, junk) => call.phase.Leading? && call.buf in s.mem
                                && |junk| == |s.mem[call.buf].content|
       case Unpublish(c, copy) => call.phase.Fetched? && copy !in s.mem
       case Close(c) => call.phase.Closing?
  }

  function SetPhase(s: State, c: Caller, p: Phase): State
    requires c in s.calls
  {
    s.(calls := s.calls[c := s.calls[c].(phase := p)])
  }

  function WriteBuffer(s: State, c: Caller, content: bytes): State
    requires c in s.calls && s.calls[c].buf in s.mem
  {
    var buf := s.calls[c].buf;
    s.(mem := s.mem[buf := s.mem[buf].(content := content)])
  }

  /** The caller takes the mutex: join the flight of its key, or publish a new one. */
  function DoAttach(s: State, c: Caller, f: FlightId): State
    requires Inv(s) && Enabled(s, Attach(c, f))
  {
    var key := s.calls[c].key;
    if key in s.inflight then
      var g := s.inflight[key];
      SetPhase(s.(flights := s.flights[g := Joined(s.flights[g])]), c, Waiting(g))
    else
      SetPhase(s.(inflight := s.inflight[key := f], flights := s.flights[f := Fresh(key, c)]),
               c, Leading(f))
  }

  /** A waiter whose flight is closed: copy the result, give up, or go round the loop. */
  function DoWake(s: State, c: Caller): State
    requires Inv(s) && Enabled(s, Wake(c))
  {
    var call := s.calls[c];
    var g := call.phase.f;
    if !s.flights[g].err then
      var (content, n) := CopyInto(s.mem[call.buf].content, s.mem[s.flights[g].data.value].content);
      SetPhase(WriteBuffer(s, c, content), c, Returned(n, true, true))
    else if call.cancelled then
      SetPhase(s, c, Returned(0, true, false))
    else
      s.(calls := s.calls[c := call.(phase := Start, failed := call.failed + {g})])
  }

  /** Under the mutex: delete the key, then copy the bytes out only if somebody waits. */
  function DoUnpublish(s: State, c: Caller, copy: Addr): State
    requires Inv(s) && Enabled(s, Unpublish(c, copy))
  {
    var call := s.calls[c];
    var Fetched(f, n, ok) := call.phase;
    var flight := Settled(s.flights[f], ok, copy);
    var mem' := if flight.data.Some?
                then s.mem[copy := Cell(s.mem[call.buf].content[..n], Data(call.key))]
                else s.mem;
    SetPhase(s.(mem := mem', inflight := s.inflight - {call.key},
                flights := s.flights[f := flight]),
             c, Closing(f, n, ok))
  }

  function Step(s: State, a: Action): State
    requires Inv(s) && Enabled(s, a)
  {
    var c := a.c;
    var call := s.calls[c];
    match a
    case Attach(_, f) => DoAttach(s, c, f)
    case Wake(_) => DoWake(s, c)
    case GiveUp(_) => SetPhase(s, c, Returned(0, true, false))
    case Cancel(_) => s.(calls := s.calls[c := call.(cancelled := true)])
    case GetOk(_) =>
      var body := Chunk(s.objects, call.key);
      var (content, n) := CopyInto(s.mem[call.buf].content, body);
      SetPhase(WriteBuffer(s, c, content), c, Fetched(call.phase.f, n, true))
    case GetFail(_, junk) =>
      SetPhase(WriteBuffer(s, c, junk), c, Fetched(call.phase.f, 0, false))
    case Unpublish(_, copy) => DoUnpublish(s, c, copy)
    case Close(_) =>
      var Closing(f, n, ok) := call.phase;
      SetPhase(s.(flights := s.flights[f := Ended(s.flights[f])]), c, Returned(n, false, ok))
  }

  // ---------------------------------------------------------------- invariant

  /** The caller's buffer starts with the n bytes of its chunk. */
  predicate Holds(s: State, c: Caller, n: nat)
    requires c in s.calls && s.calls[c].buf in s.mem
  {
    && HasChunk(s.objects, s.calls[c].key)
    && n == |Chunk(s.objects, s.calls[c].key)|
    && n <= |s.mem[s.calls[c].buf].content|
    && s.mem[s.calls[c].buf].content[..n] == Chunk(s.objects, s.calls[c].key)
  }

  predicate Leads(s: State, c: Caller, f: FlightId, status: Status)
    requires c in s.calls
  {
    && f in s.flights
    && s.flights[f].key == s.calls[c].key
    && s.flights[f].leader == c
    && s.flights[f].status == status
  }

  predicate CallOk(s: State, c: Caller)
    requires c in s.calls
  {
    var call := s.calls[c];
    && call.buf in s.mem
    && s.mem[call.buf].tag == Held(c)
    && |s.mem[call.buf].content| == CHUNK_SIZE
    && match call.phase
       case Start => true
       case Waiting(f) => f in s.flights && s.flights[f].key == call.key && s.flights[f].waiters > 0
       case Leading(f) => Leads(s, c, f, Open)
       case Fetched(f, n, ok) => Leads(s, c, f, Open) && (ok ==> Holds(s, c, n))
       case Closing(f, n, ok) => Leads(s, c, f, Unpublished) && s.flights[f].err == !ok
                                 && (ok ==> Holds(s, c, n))
       case Returned(n, joined, ok) => ok ==> Holds(s, c, n)
  }

  /** Between publish and unpublish: the window in which a key is in the inflight map. */
  predicate InWindow(p: Phase) {
    p.Leading? || p.Fetched?
  }

  predicate FlightOk(s: State, f: FlightId)
    requires f in s.flights
  {
    var flight := s.flights[f];
    && (flight.status.Open? ==>
          && flight.key in s.inflight && s.inflight[flight.key] == f
          && flight.leader in s.calls
          && InWindow(s.calls[flight.leader].phase) && s.calls[flight.leader].phase.f == f)
    && (flight.status.Unpublished? ==>
          && flight.leader in s.calls
          && s.calls[flight.leader].phase.Closing? && s.calls[flight.leader].phase.f == f)
    && (!flight.status.Open? && !flight.err && flight.waiters > 0 ==> flight.data.Some?)
    && (flight.data.Some? ==>
          flight.data.value in s.mem && s.mem[flight.data.value].tag == Data(flight.key))
  }

  predicate KeyOk(s: State, k: ChunkKey)
    requires k in s.inflight
  {
    var f := s.inflight[k];
    f in s.flights && s.flights[f].key == k && s.flights[f].status.Open?
  }

  /** An array labelled with a chunk holds exactly that chunk. */
  predicate CellOk(s: State, a: Addr)
    requires a in s.mem
  {
    s.mem[a].tag.Data? ==>
      HasChunk(s.objects, s.mem[a].tag.key) && s.mem[a].content == Chunk(s.objects, s.mem[a].tag.key)
  }

  ghost predicate Inv(s: State) {
    && (forall c | c in s.calls :: CallOk(s, c))
    && (forall f | f in s.flights :: FlightOk(s, f))
    && (forall k | k in s.inflight :: KeyOk(s, k))
    && (forall a | a in s.mem :: CellOk(s, a))
  }
}
