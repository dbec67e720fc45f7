/** What holds in every reachable state of the single-flight protocol. */
module SingleFlightSafety {
  import opened Basics
  import opened SingleFlight

  // ---------------------------------------------------------------- frames

  /** A call keeps its invariant if its array, its flight's identity and status are kept. */
  lemma CallFrame(s: State, t: State, c: Caller)
    requires c in s.calls && c in t.calls && CallOk(s, c)
    requires t.objects == s.objects && t.calls[c] == s.calls[c]
    requires s.calls[c].buf in t.mem && t.mem[s.calls[c].buf] == s.mem[s.calls[c].buf]
    requires forall f | f in s.flights ::
               && f in t.flights && t.flights[f].key == s.flights[f].key
               && t.flights[f].leader == s.flights[f].leader
               && t.flights[f].waiters >= s.flights[f].waiters
               && (s.flights[f].leader == c ==> t.flights[f].status == s.flights[f].status
                                                && t.flights[f].err == s.flights[f].err)
    ensures CallOk(t, c)
  {
  }

  lemma FlightFrame(s: State, t: State, f: FlightId)
    requires f in s.flights && f in t.flights && FlightOk(s, f)
    requires t.flights[f] == s.flights[f]
    requires s.flights[f].key in s.inflight && s.inflight[s.flights[f].key] == f ==>
               s.flights[f].key in t.inflight && t.inflight[s.flights[f].key] == f
    requires s.flights[f].leader in s.calls ==>
               s.flights[f].leader in t.calls &&
               (PhaseOnFlight(s.calls[s.flights[f].leader].phase, f) ==>
                  && PhaseOnFlight(t.calls[s.flights[f].leader].phase, f)
                  && InWindow(t.calls[s.flights[f].leader].phase) == InWindow(s.calls[s.flights[f].leader].phase))
    requires s.flights[f].data.Some? && s.flights[f].data.value in s.mem ==>
               s.flights[f].data.value in t.mem
               && t.mem[s.flights[f].data.value].tag == s.mem[s.flights[f].data.value].tag
    ensures FlightOk(t, f)
  {
  }

  predicate PhaseOnFlight(p: Phase, f: FlightId) {
    (InWindow(p) || p.Closing?) && p.f == f
  }

  // ---------------------------------------------------------------- every action keeps the invariant

  lemma AttachCall(s: State, c: Caller, f: FlightId, d: Caller)
    requires Inv(s) && Enabled(s, Attach(c, f)) && d in s.calls
    ensures CallOk(DoAttach(s, c, f), d)
  {
    assert CallOk(s, d);
    if d != c { CallFrame(s, DoAttach(s, c, f), d); } else { OwnCallAttach(s, c, f); }
  }

  lemma OwnCallAttach(s: State, c: Caller, f: FlightId)
    requires Inv(s) && Enabled(s, Attach(c, f))
    ensures CallOk(DoAttach(s, c, f), c)
  {
    assert CallOk(s, c);
  }

  lemma OldFlightAttach(s: State, c: Caller, f: FlightId, g: FlightId)
    requires Inv(s) && Enabled(s, Attach(c, f)) && g in s.flights
    ensures g in DoAttach(s, c, f).flights && FlightOk(DoAttach(s, c, f), g)
  {
    var t := DoAttach(s, c, f);
    assert FlightOk(s, g);
    if t.flights[g] == s.flights[g] { FlightFrame(s, t, g); }
  }

  lemma AttachFlight(s: State, c: Caller, f: FlightId, g: FlightId)
    requires Inv(s) && Enabled(s, Attach(c, f)) && g in DoAttach(s, c, f).flights
    ensures FlightOk(DoAttach(s, c, f), g)
  {
    if g in s.flights { OldFlightAttach(s, c, f, g); }
  }

  lemma AttachKeepsInv(s: State, c: Caller, f: FlightId)
    requires Inv(s) && Enabled(s, Attach(c, f))
    ensures Inv(DoAttach(s, c, f))
  {
    var t := DoAttach(s, c, f);
    forall d | d in t.calls ensures CallOk(t, d) { AttachCall(s, c, f, d); }
    forall g | g in t.flights ensures FlightOk(t, g) { AttachFlight(s, c, f, g); }
    forall k | k in t.inflight ensures KeyOk(t, k) {
      if k in s.inflight { assert KeyOk(s, k); }
    }
    forall a | a in t.mem ensures CellOk(t, a) { assert CellOk(s, a); }
  }

  /** Filling one's own borrowed buffer disturbs no other call, no flight and no labelled array. */
  lemma OwnBufferWrite(s: State, t: State, c: Caller, content: bytes)
    requires Inv(s) && c in s.calls && s.calls[c].buf in s.mem && |content| == CHUNK_SIZE
    requires c in t.calls && t.calls.Keys == s.calls.Keys
    requires t.objects == s.objects && t.inflight == s.inflight && t.flights == s.flights
    requires t.mem == WriteBuffer(s, c, content).mem
    requires forall d | d in s.calls && d != c :: t.calls[d] == s.calls[d]
    requires forall f | f in s.flights && s.flights[f].leader == c && PhaseOnFlight(s.calls[c].phase, f) ::
               && PhaseOnFlight(t.calls[c].phase, f)
               && InWindow(t.calls[c].phase) == InWindow(s.calls[c].phase)
    requires CallOk(t, c)
    ensures Inv(t)
  {
    assert CallOk(s, c);
    forall d | d in t.calls ensures CallOk(t, d) {
      if d != c { assert CallOk(s, d); CallFrame(s, t, d); }
    }
    forall g | g in t.flights ensures FlightOk(t, g) { assert FlightOk(s, g); FlightFrame(s, t, g); }
    forall k | k in t.inflight ensures KeyOk(t, k) { assert KeyOk(s, k); }
    forall a | a in t.mem ensures CellOk(t, a) { assert CellOk(s, a); }
  }

  lemma WakeKeepsInv(s: State, c: Caller)
    requires Inv(s) && Enabled(s, Wake(c))
    ensures Inv(DoWake(s, c))
  {
    var t := DoWake(s, c);
    assert CallOk(s, c);
    var call := s.calls[c];
    var g := call.phase.f;
    assert FlightOk(s, g);
    var content := s.mem[call.buf].content;
    if !s.flights[g].err {
      assert CellOk(s, s.flights[g].data.value);
      content := CopyInto(content, s.mem[s.flights[g].data.value].content).0;
    } else {
      assert t.mem == WriteBuffer(s, c, content).mem;
    }
    OwnBufferWrite(s, t, c, content);
  }

  lemma GetOkKeepsInv(s: State, c: Caller)
    requires Inv(s) && Enabled(s, GetOk(c))
    ensures Inv(Step(s, GetOk(c)))
  {
    assert CallOk(s, c);
    var content := CopyInto(s.mem[s.calls[c].buf].content, Chunk(s.objects, s.calls[c].key)).0;
    OwnBufferWrite(s, Step(s, GetOk(c)), c, content);
  }

  lemma GetFailKeepsInv(s: State, c: Caller, junk: bytes)
    requires Inv(s) && Enabled(s, GetFail(c, junk))
    ensures Inv(Step(s, GetFail(c, junk)))
  {
    assert CallOk(s, c);
    OwnBufferWrite(s, Step(s, GetFail(c, junk)), c, junk);
  }

  lemma UnpublishCall(s: State, c: Caller, copy: Addr, d: Caller)
    requires Inv(s) && Enabled(s, Unpublish(c, copy)) && d in s.calls
    ensures CallOk(DoUnpublish(s, c, copy), d)
  {
    assert CallOk(s, c) && CallOk(s, d);
    if d != c { CallFrame(s, DoUnpublish(s, c, copy), d); }
  }

  lemma UnpublishFlight(s: State, c: Caller, copy: Addr, g: FlightId)
    requires Inv(s) && Enabled(s, Unpublish(c, copy)) && g in s.flights
    ensures FlightOk(DoUnpublish(s, c, copy), g)
  {
    assert CallOk(s, c) && FlightOk(s, g);
    if g != s.calls[c].phase.f { FlightFrame(s, DoUnpublish(s, c, copy), g); }
  }

  lemma UnpublishKey(s: State, c: Caller, copy: Addr, k: ChunkKey)
    requires Inv(s) && Enabled(s, Unpublish(c, copy)) && k in DoUnpublish(s, c, copy).inflight
    ensures KeyOk(DoUnpublish(s, c, copy), k)
  {
    assert KeyOk(s, k) && CallOk(s, c) && FlightOk(s, s.inflight[k]);
  }

  lemma UnpublishCell(s: State, c: Caller, copy: Addr, a: Addr)
    requires Inv(s) && Enabled(s, Unpublish(c, copy)) && a in DoUnpublish(s, c, copy).mem
    ensures CellOk(DoUnpublish(s, c, copy), a)
  {
    assert CallOk(s, c);
    if a in s.mem { assert CellOk(s, a); }
  }

  lemma UnpublishKeepsInv(s: State, c: Caller, copy: Addr)
    requires Inv(s) && Enabled(s, Unpublish(c, copy))
    ensures Inv(DoUnpublish(s, c, copy))
  {
    var t := DoUnpublish(s, c, copy);
    forall d | d in t.calls ensures CallOk(t, d) { UnpublishCall(s, c, copy, d); }
    forall g | g in t.flights ensures FlightOk(t, g) { UnpublishFlight(s, c, copy, g); }
    forall k | k in t.inflight ensures KeyOk(t, k) { UnpublishKey(s, c, copy, k); }
    forall a | a in t.mem ensures CellOk(t, a) { UnpublishCell(s, c, copy, a); }
  }

  lemma CloseKeepsInv(s: State, c: Caller)
    requires Inv(s) && Enabled(s, Close(c))
    ensures Inv(Step(s, Close(c)))
  {
    var t := Step(s, Close(c));
    assert CallOk(s, c);
    forall d | d in t.calls ensures CallOk(t, d) {
      assert CallOk(s, d);
      if d != c { CallFrame(s, t, d); }
    }
    forall g | g in t.flights ensures FlightOk(t, g) {
      assert FlightOk(s, g);
      if g != s.calls[c].phase.f { FlightFrame(s, t, g); }
    }
    forall k | k in t.inflight ensures KeyOk(t, k) { assert KeyOk(s, k); }
    forall a | a in t.mem ensures CellOk(t, a) { assert CellOk(s, a); }
  }

  lemma QuietKeepsInv(s: State, a: Action)
    requires Inv(s) && Enabled(s, a) && (a.GiveUp? || a.Cancel?)
    ensures Inv(Step(s, a))
  {
    assert CallOk(s, a.c);
    var content := s.mem[s.calls[a.c].buf].content;
    assert Step(s, a).mem == WriteBuffer(s, a.c, content).mem;
    OwnBufferWrite(s, Step(s, a), a.c, content);
  }

  lemma StepKeepsInv(s: State, a: Action)
    requires Inv(s) && Enabled(s, a)
    ensures Inv(Step(s, a))
  {
    match a
    case Attach(c, f) => AttachKeepsInv(s, c, f);
    case Wake(c) => WakeKeepsInv(s, c);
    case GetOk(c) => GetOkKeepsInv(s, c);
    case GetFail(c, junk) => GetFailKeepsInv(s, c, junk);
    case Unpublish(c, copy) => UnpublishKeepsInv(s, c, copy);
    case Close(c) => CloseKeepsInv(s, c);
    case _ => QuietKeepsInv(s, a);
  }

  // ---------------------------------------------------------------- runs

  /** Callers about to take the mutex for the first time, each with its own borrowed array. */
  ghost predicate Initial(s: State) {
    && s.inflight == map[] && s.flights == map[]
    && (forall c | c in s.calls ::
          && s.calls[c].phase.Start? && s.calls[c].failed == {}
          && s.calls[c].buf in s.mem && s.mem[s.calls[c].buf].tag == Held(c)
          && |s.mem[s.calls[c].buf].content| == CHUNK_SIZE)
    && (forall a | a in s.mem :: !s.mem[a].tag.Data?)
  }

  ghost predicate CanRun(s: State, actions: seq<Action>)
    requires Inv(s)
    decreases |actions|
  {
    actions != [] ==>
      && Enabled(s, actions[0])
      && (StepKeepsInv(s, actions[0]); CanRun(Step(s, actions[0]), actions[1..]))
  }

  ghost function Run(s: State, actions: seq<Action>): (t: State)
    requires Inv(s) && CanRun(s, actions)
    ensures Inv(t)
    decreases |actions|
  {
    if actions == [] then s
    else
      StepKeepsInv(s, actions[0]);
      Run(Step(s, actions[0]), actions[1..])
  }

  lemma InitialHasInv(s: State)
    requires Initial(s)
    ensures Inv(s)
  {
  }

  // ---------------------------------------------------------------- theorems

  /** A key is in the inflight map iff one caller is between publish and unpublish for it;
      hence at most one GET per key is outstanding. */
  lemma InflightIffOneLeader(s: State, k: ChunkKey)
    requires Inv(s)
    ensures k in s.inflight <==> exists c | c in s.calls :: s.calls[c].key == k && InWindow(s.calls[c].phase)
    ensures forall c, d | c in s.calls && d in s.calls ::
              (s.calls[c].key == k && InWindow(s.calls[c].phase)
               && s.calls[d].key == k && InWindow(s.calls[d].phase)) ==> c == d
  {
    forall c | c in s.calls && s.calls[c].key == k && InWindow(s.calls[c].phase)
      ensures k in s.inflight && s.flights[s.inflight[k]].leader == c
    {
      assert CallOk(s, c) && FlightOk(s, s.calls[c].phase.f);
    }
    if k in s.inflight {
      assert KeyOk(s, k) && FlightOk(s, s.inflight[k]);
      var c := s.flights[s.inflight[k]].leader;
      assert CallOk(s, c);
      assert c in s.calls && s.calls[c].key == k && InWindow(s.calls[c].phase);
    }
  }

  /** A waiter that finds done closed and no error always finds the leader's copy, holding
      exactly the chunk, and delivers it: the result is never missing and never partial. */
  lemma WaiterReceivesTheChunk(s: State, c: Caller)
    requires Inv(s) && Enabled(s, Wake(c)) && !s.flights[s.calls[c].phase.f].err
    ensures var flight := s.flights[s.calls[c].phase.f];
            && flight.data.Some? && flight.data.value in s.mem
            && HasChunk(s.objects, s.calls[c].key)
            && s.mem[flight.data.value].content == Chunk(s.objects, s.calls[c].key)
            && flight.data.value != s.calls[c].buf
    ensures var t := Step(s, Wake(c));
            var chunk := Chunk(s.objects, s.calls[c].key);
            && t.calls[c].phase == Returned(|chunk|, true, true)
            && t.mem[s.calls[c].buf].content[..|chunk|] == chunk
  {
    WakeKeepsInv(s, c);
    assert CallOk(s, c) && FlightOk(s, s.calls[c].phase.f) && CallOk(DoWake(s, c), c);
    assert CellOk(s, s.flights[s.calls[c].phase.f].data.value);
  }

  /** Every call that ends without an error, as leader or as waiter, ends with its chunk. */
  lemma SuccessMeansTheChunk(s: State, actions: seq<Action>, c: Caller)
    requires Initial(s) && Inv(s) && CanRun(s, actions)
    requires c in Run(s, actions).calls && Run(s, actions).calls[c].phase.Returned?
    requires Run(s, actions).calls[c].phase.ok
    ensures var t := Run(s, actions);
            var n := t.calls[c].phase.n;
            && HasChunk(t.objects, t.calls[c].key)
            && t.calls[c].buf in t.mem && n <= |t.mem[t.calls[c].buf].content|
            && t.mem[t.calls[c].buf].content[..n] == Chunk(t.objects, t.calls[c].key)
  {
    assert CallOk(Run(s, actions), c);
  }

  /** A published copy is never a borrowed buffer, and no action of anyone ever changes it. */
  lemma CopiesAreStable(s: State, a: Action, copy: Addr)
    requires Inv(s) && Enabled(s, a) && copy in s.mem && s.mem[copy].tag.Data?
    ensures copy in Step(s, a).mem && Step(s, a).mem[copy] == s.mem[copy]
    ensures forall c | c in s.calls :: s.calls[c].buf != copy
  {
    assert CallOk(s, a.c);
    forall c | c in s.calls ensures s.calls[c].buf != copy { assert CallOk(s, c); }
  }

  /** Unpublishing makes a copy exactly when the GET succeeded and somebody has joined, and
      afterwards nobody can join this flight any more. */
  lemma CopyIffAwaited(s: State, c: Caller, copy: Addr)
    requires Inv(s) && Enabled(s, Unpublish(c, copy))
    ensures var f := s.calls[c].phase.f;
            var t := DoUnpublish(s, c, copy);
            && (copy in t.mem <==> s.calls[c].phase.ok && s.flights[f].waiters > 0)
            && (t.flights[f].data.Some? <==> copy in t.mem)
            && (forall k | k in t.inflight :: t.inflight[k] != f)
            && ((exists d | d in s.calls :: s.calls[d].phase == Waiting(f)) && s.calls[c].phase.ok ==> copy in t.mem)
  {
    var t := DoUnpublish(s, c, copy);
    UnpublishKeepsInv(s, c, copy);
    assert CallOk(s, c);
    forall k | k in t.inflight ensures t.inflight[k] != s.calls[c].phase.f { assert KeyOk(t, k); }
    forall d | d in s.calls && s.calls[d].phase == Waiting(s.calls[c].phase.f)
      ensures s.flights[s.calls[c].phase.f].waiters > 0 { assert CallOk(s, d); }
  }

  // ---------------------------------------------------------------- cancellation

  predicate WaitsOrReturned(s: State, c: Caller, f: FlightId) {
    c in s.calls && s.calls[c].cancelled && (s.calls[c].phase == Waiting(f) || s.calls[c].phase.Returned?)
  }

  lemma StepOfCancelled(s: State, a: Action, c: Caller, f: FlightId)
    requires Inv(s) && Enabled(s, a) && WaitsOrReturned(s, c, f)
    ensures WaitsOrReturned(Step(s, a), c, f)
  {
    if a.c != c { OthersStay(s, a, c); }
  }

  lemma OthersStay(s: State, a: Action, c: Caller)
    requires Inv(s) && Enabled(s, a) && c in s.calls && a.c != c
    ensures c in Step(s, a).calls && Step(s, a).calls[c] == s.calls[c]
  {
  }

  /** A waiter that was cancelled never looks for another flight, nor leads one: whatever comes,
      it waits on the one it has or returns. */
  lemma {:induction false} CancelledWaitersLeave(s: State, actions: seq<Action>, c: Caller, f: FlightId)
    requires Inv(s) && CanRun(s, actions) && WaitsOrReturned(s, c, f)
    ensures WaitsOrReturned(Run(s, actions), c, f)
    decreases |actions|
  {
    if actions != [] {
      StepKeepsInv(s, actions[0]);
      StepOfCancelled(s, actions[0], c, f);
      CancelledWaitersLeave(Step(s, actions[0]), actions[1..], c, f);
    }
  }
}
