/** What the surroundings of the single-flight protocol may do to its state: make an array,
    hand a caller a buffer, take a finished call away. Each keeps the protocol's invariant. */
module SingleFlightEnv {
  import opened Basics
  import opened SingleFlight
  import opened SingleFlightSafety

  /** make: a new array. */
  function Alloc(s: State, a: Addr, content: bytes, tag: Tag): State {
    s.(mem := s.mem[a := Cell(content, tag)])
  }

  /** A buffer changes hands; its content stays. */
  function Hand(s: State, a: Addr, tag: Tag): State
    requires a in s.mem
  {
    s.(mem := s.mem[a := s.mem[a].(tag := tag)])
  }

  /** FetchChunkShared is called with a buffer. */
  function Begin(s: State, c: Caller, key: ChunkKey, buf: Addr): State {
    s.(calls := s.calls[c := Call(key, buf, false, Start, {})])
  }

  /** FetchChunkShared has returned. */
  function End(s: State, c: Caller): State {
    s.(calls := s.calls - {c})
  }

  /** Arrays with chunk labels are kept, with their content. */
  ghost predicate DataKept(s: State, t: State) {
    forall a | a in s.mem && s.mem[a].tag.Data? :: a in t.mem && t.mem[a] == s.mem[a]
  }

  lemma MemChange(s: State, t: State)
    requires Inv(s)
    requires t == s.(mem := t.mem) && DataKept(s, t)
    requires forall c | c in s.calls :: s.calls[c].buf in t.mem && t.mem[s.calls[c].buf] == s.mem[s.calls[c].buf]
    requires forall a | a in t.mem :: CellOk(t, a)
    ensures Inv(t)
  {
    forall c | c in t.calls ensures CallOk(t, c) { assert CallOk(s, c); CallFrame(s, t, c); }
    forall f | f in t.flights ensures FlightOk(t, f) { assert FlightOk(s, f); FlightFrame(s, t, f); }
    forall k | k in t.inflight ensures KeyOk(t, k) { assert KeyOk(s, k); }
  }

  lemma AllocKeepsInv(s: State, a: Addr, content: bytes, tag: Tag)
    requires Inv(s) && a !in s.mem
    requires tag.Data? ==> HasChunk(s.objects, tag.key) && content == Chunk(s.objects, tag.key)
    ensures Inv(Alloc(s, a, content, tag)) && DataKept(s, Alloc(s, a, content, tag))
  {
    var t := Alloc(s, a, content, tag);
    forall b | b in t.mem ensures CellOk(t, b) { if b in s.mem { assert CellOk(s, b); } }
    forall c | c in s.calls ensures s.calls[c].buf in t.mem && t.mem[s.calls[c].buf] == s.mem[s.calls[c].buf] {
      assert CallOk(s, c);
    }
    MemChange(s, t);
  }

  lemma HandKeepsInv(s: State, a: Addr, tag: Tag)
    requires Inv(s) && a in s.mem && !s.mem[a].tag.Data? && !tag.Data?
    requires forall c | c in s.calls :: s.calls[c].buf != a
    ensures Inv(Hand(s, a, tag)) && DataKept(s, Hand(s, a, tag))
  {
    var t := Hand(s, a, tag);
    forall b | b in t.mem ensures CellOk(t, b) { assert CellOk(s, b); }
    forall c | c in s.calls ensures s.calls[c].buf in t.mem && t.mem[s.calls[c].buf] == s.mem[s.calls[c].buf] {
      assert CallOk(s, c);
    }
    MemChange(s, t);
  }

  lemma BeginKeepsInv(s: State, c: Caller, key: ChunkKey, buf: Addr)
    requires Inv(s) && c !in s.calls
    requires buf in s.mem && s.mem[buf].tag == Held(c) && |s.mem[buf].content| == CHUNK_SIZE
    ensures Inv(Begin(s, c, key, buf))
  {
    var t := Begin(s, c, key, buf);
    forall d | d in t.calls ensures CallOk(t, d) {
      if d != c { assert CallOk(s, d); CallFrame(s, t, d); }
    }
    forall f | f in t.flights ensures FlightOk(t, f) { assert FlightOk(s, f); FlightFrame(s, t, f); }
    forall k | k in t.inflight ensures KeyOk(t, k) { assert KeyOk(s, k); }
    forall a | a in t.mem ensures CellOk(t, a) { assert CellOk(s, a); }
  }

  lemma EndKeepsInv(s: State, c: Caller)
    requires Inv(s) && c in s.calls && s.calls[c].phase.Returned?
    ensures Inv(End(s, c))
  {
    var t := End(s, c);
    forall d | d in t.calls ensures CallOk(t, d) { assert CallOk(s, d); CallFrame(s, t, d); }
    forall f | f in t.flights ensures FlightOk(t, f) { assert FlightOk(s, f); }
    forall k | k in t.inflight ensures KeyOk(t, k) { assert KeyOk(s, k); }
    forall a | a in t.mem ensures CellOk(t, a) { assert CellOk(s, a); }
  }

  /** What a step leaves alone: labels, lengths, labelled arrays, who calls for what. */
  ghost predicate Keeps(s: State, t: State) {
    && t.objects == s.objects && DataKept(s, t)
    && (forall b | b in s.mem :: b in t.mem && t.mem[b].tag == s.mem[b].tag && |t.mem[b].content| == |s.mem[b].content|)
    && (forall b | b in t.mem && b !in s.mem :: t.mem[b].tag.Data?)
    && t.calls.Keys == s.calls.Keys
    && (forall c | c in s.calls :: t.calls[c].buf == s.calls[c].buf && t.calls[c].key == s.calls[c].key)
  }

  lemma FillKeeps(s: State, a: Action)
    requires Inv(s) && Enabled(s, a) && (a.GetOk? || a.GetFail?)
    ensures Keeps(s, Step(s, a))
  {
    assert CallOk(s, a.c);
  }

  lemma UnpublishKeeps(s: State, c: Caller, copy: Addr)
    requires Inv(s) && Enabled(s, Unpublish(c, copy))
    ensures Keeps(s, DoUnpublish(s, c, copy))
  {
    assert CallOk(s, c);
  }

  lemma WakeKeeps(s: State, c: Caller)
    requires Inv(s) && Enabled(s, Wake(c))
    ensures Keeps(s, DoWake(s, c))
  {
    assert CallOk(s, c);
  }

  lemma AttachKeeps(s: State, c: Caller, f: FlightId)
    requires Inv(s) && Enabled(s, Attach(c, f))
    ensures Keeps(s, DoAttach(s, c, f))
  {
  }

  lemma StepKeeps(s: State, a: Action)
    requires Inv(s) && Enabled(s, a)
    ensures Keeps(s, Step(s, a))
  {
    match a
    case Attach(c, f) => AttachKeeps(s, c, f);
    case Wake(c) => WakeKeeps(s, c);
    case Unpublish(c, copy) => UnpublishKeeps(s, c, copy);
    case GetOk(_) => FillKeeps(s, a);
    case GetFail(_, _) => FillKeeps(s, a);
    case _ =>
  }
}
