/** Background writes of one chunk that overlap. Each goes through the same temporary name: it
    opens and empties the file, writes it in pieces, and renames it. When do readers see only
    whole chunks? */
module ColdWrites {
  import opened Basics

  type Inode = nat
  type Writer = nat

  // What a writer has open, and how much of the chunk it has written.
  datatype Handle = Handle(file: Inode, n: nat)

  // shown is the file under the chunk's name, tmp the one under the temporary name. since is
  // history: the positions of a file that were written since it was last opened.
  datatype State = State(shown: Option<Inode>, tmp: Option<Inode>, files: map<Inode, bytes>,
                         writers: map<Writer, Handle>, since: map<Inode, set<nat>>)

  datatype Action =
    | Open(w: Writer, file: Inode)     // a new file, if there is none under the temporary name
    | Fill(w: Writer, n: nat)          // the next n bytes
    | Rename(w: Writer)
    | Abandon(w: Writer)               // an error, or the end of the program

  predicate Enabled(s: State, chunk: bytes, a: Action) {
    match a
    case Open(w, file) => w !in s.writers && file !in s.files
    case Fill(w, n) => w in s.writers && n > 0 && s.writers[w].n + n <= |chunk|
    case Rename(w) => w in s.writers && s.writers[w].n == |chunk|
    case Abandon(w) => w in s.writers
  }

  function Zeros(n: nat): (z: bytes)
    ensures |z| == n && forall i | 0 <= i < n :: z[i] == 0
  {
    seq(n, _ => 0)
  }

  /** Writing at an offset: a gap before it reads as zeros, what lies behind it stays. */
  function Overwrite(content: bytes, at: nat, data: bytes): (c: bytes)
    ensures |c| == Max(|content|, at + |data|)
    ensures forall i | 0 <= i < |c| ::
              c[i] == if at <= i < at + |data| then data[i - at] else if i < |content| then content[i] else 0
  {
    var long := if |content| < at then content + Zeros(at - |content|) else content;
    long[..at] + data + (if |long| > at + |data| then long[at + |data|..] else [])
  }

  ghost predicate Valid(s: State) {
    && (s.shown.Some? ==> s.shown.value in s.files)
    && (s.tmp.Some? ==> s.tmp.value in s.files && s.tmp != s.shown)
    && (forall w | w in s.writers :: s.writers[w].file in s.files)
    && s.since.Keys == s.files.Keys
  }

  function Positions(at: nat, n: nat): (ps: set<nat>)
    ensures forall i :: i in ps <==> at <= i < at + n
  {
    if n == 0 then {} else Positions(at, n - 1) + {at + n - 1}
  }

  function Step(s: State, chunk: bytes, a: Action): State
    requires Valid(s) && Enabled(s, chunk, a)
  {
    match a
    case Open(w, file) =>
      var f := if s.tmp.Some? then s.tmp.value else file;
      s.(tmp := Some(f), files := s.files[f := []], writers := s.writers[w := Handle(f, 0)],
         since := s.since[f := {}])
    case Fill(w, n) =>
      var Handle(f, at) := s.writers[w];
      s.(files := s.files[f := Overwrite(s.files[f], at, chunk[at..at + n])],
         writers := s.writers[w := Handle(f, at + n)],
         since := s.since[f := s.since[f] + Positions(at, n)])
    case Rename(w) =>
      // without a temporary file, because another write renamed it, this one fails
      var s' := s.(writers := s.writers - {w});
      if s.tmp.Some? then s'.(shown := s.tmp, tmp := None) else s'
    case Abandon(w) => s.(writers := s.writers - {w})
  }

  /** What a reader finds. */
  function Seen(s: State): Option<bytes>
    requires Valid(s)
  {
    if s.shown.Some? then Some(s.files[s.shown.value]) else None
  }

  lemma StepKeepsValid(s: State, chunk: bytes, a: Action)
    requires Valid(s) && Enabled(s, chunk, a)
    ensures Valid(Step(s, chunk, a))
  {
  }

  // ---------------------------------------------------------------- exactly what is in a file

  /** A file has the bytes that were written since it was first, and zeros in its gaps. */
  ghost predicate FileOk(content: bytes, since: set<nat>, chunk: bytes) {
    && |content| <= |chunk|
    && (forall i | 0 <= i < |content| :: content[i] == if i in since then chunk[i] else 0)
    && (forall i | i in since :: i < |content|)
    && (content != [] ==> |content| - 1 in since)
  }

  /** What may be left under the temporary name from before is emptied by the first write. */
  ghost predicate TmpOk(s: State, chunk: bytes) {
    Valid(s) && (s.tmp.Some? && s.writers != map[] ==> FileOk(s.files[s.tmp.value], s.since[s.tmp.value], chunk))
  }

  /** All of the chunk was written since the file was first, but for zeros before its end. */
  ghost predicate Covered(since: set<nat>, chunk: bytes) {
    && (chunk != [] ==> |chunk| - 1 in since)
    && forall i | 0 <= i < |chunk| :: i in since || chunk[i] == 0
  }

  lemma CoveredIff(content: bytes, since: set<nat>, chunk: bytes)
    requires FileOk(content, since, chunk)
    ensures content == chunk <==> Covered(since, chunk)
  {
    if Covered(since, chunk) && chunk != [] {
      assert |content| == |chunk|;
    }
  }

  lemma FillOk(content: bytes, since: set<nat>, chunk: bytes, at: nat, n: nat)
    requires FileOk(content, since, chunk) && n > 0 && at + n <= |chunk|
    ensures FileOk(Overwrite(content, at, chunk[at..at + n]), since + Positions(at, n), chunk)
  {
  }

  lemma FillWrites(s: State, chunk: bytes, w: Writer, n: nat, content: bytes, since: set<nat>)
    requires Valid(s) && Enabled(s, chunk, Fill(w, n))
    requires var Handle(f, at) := s.writers[w];
             content == Overwrite(s.files[f], at, chunk[at..at + n]) && since == s.since[f] + Positions(at, n)
    ensures var (t, f) := (Step(s, chunk, Fill(w, n)), s.writers[w].file);
            && Valid(t) && t.tmp == s.tmp && s.writers != map[]
            && (forall g | g in s.files && g != f ::
                  g in t.files && t.files[g] == s.files[g] && t.since[g] == s.since[g])
            && f in t.files && t.files[f] == content && t.since[f] == since
  {
    assert w in s.writers;
  }

  lemma FillFile(content: bytes, since: set<nat>, chunk: bytes, at: nat, n: nat)
    returns (content': bytes, since': set<nat>)
    requires n > 0 && at + n <= |chunk|
    ensures content' == Overwrite(content, at, chunk[at..at + n]) && since' == since + Positions(at, n)
    ensures FileOk(content, since, chunk) ==> FileOk(content', since', chunk)
  {
    content', since' := Overwrite(content, at, chunk[at..at + n]), since + Positions(at, n);
    if FileOk(content, since, chunk) { FillOk(content, since, chunk, at, n); }
  }

  lemma FillEffect(s: State, chunk: bytes, w: Writer, n: nat) returns (content: bytes, since: set<nat>)
    requires Valid(s) && Enabled(s, chunk, Fill(w, n))
    ensures var (t, f) := (Step(s, chunk, Fill(w, n)), s.writers[w].file);
            && Valid(t) && t.tmp == s.tmp && s.writers != map[]
            && (forall g | g in s.files && g != f ::
                  g in t.files && t.files[g] == s.files[g] && t.since[g] == s.since[g])
            && f in t.files && t.files[f] == content && t.since[f] == since
    ensures FileOk(s.files[s.writers[w].file], s.since[s.writers[w].file], chunk) ==> FileOk(content, since, chunk)
  {
    var Handle(f, at) := s.writers[w];
    content, since := FillFile(s.files[f], s.since[f], chunk, at, n);
    FillWrites(s, chunk, w, n, content, since);
  }

  lemma TmpFilled(s: State, t: State, chunk: bytes, f: Inode, content: bytes, since: set<nat>)
    requires TmpOk(s, chunk) && Valid(t) && t.tmp == s.tmp && s.writers != map[] && f in s.files && f in t.files
    requires forall g | g in s.files && g != f :: g in t.files && t.files[g] == s.files[g] && t.since[g] == s.since[g]
    requires t.files[f] == content && t.since[f] == since
    requires FileOk(s.files[f], s.since[f], chunk) ==> FileOk(content, since, chunk)
    ensures TmpOk(t, chunk)
  {
  }

  lemma FillKeepsTmp(s: State, chunk: bytes, w: Writer, n: nat)
    requires TmpOk(s, chunk) && Enabled(s, chunk, Fill(w, n))
    ensures TmpOk(Step(s, chunk, Fill(w, n)), chunk)
  {
    var content, since := FillEffect(s, chunk, w, n);
    TmpFilled(s, Step(s, chunk, Fill(w, n)), chunk, s.writers[w].file, content, since);
  }

  lemma StepKeepsTmp(s: State, chunk: bytes, a: Action)
    requires TmpOk(s, chunk) && Enabled(s, chunk, a)
    ensures TmpOk(Step(s, chunk, a), chunk)
  {
    match a
    case Open(w, file) => assert FileOk([], {}, chunk);
    case Fill(w, n) => FillKeepsTmp(s, chunk, w, n);
    case Rename(w) =>
    case Abandon(w) =>
  }

  // ---------------------------------------------------------------- runs

  ghost predicate CanRun(s: State, chunk: bytes, actions: seq<Action>)
    requires Valid(s)
    decreases |actions|
  {
    actions != [] ==>
      && Enabled(s, chunk, actions[0])
      && (StepKeepsValid(s, chunk, actions[0]); CanRun(Step(s, chunk, actions[0]), chunk, actions[1..]))
  }

  ghost function Run(s: State, chunk: bytes, actions: seq<Action>): (t: State)
    requires Valid(s) && CanRun(s, chunk, actions)
    ensures Valid(t)
    decreases |actions|
  {
    if actions == [] then s
    else
      StepKeepsValid(s, chunk, actions[0]);
      Run(Step(s, chunk, actions[0]), chunk, actions[1..])
  }

  lemma {:induction false} RunKeepsTmp(s: State, chunk: bytes, actions: seq<Action>)
    requires TmpOk(s, chunk) && CanRun(s, chunk, actions)
    ensures TmpOk(Run(s, chunk, actions), chunk)
    decreases |actions|
  {
    if actions != [] {
      StepKeepsTmp(s, chunk, actions[0]);
      RunKeepsTmp(Step(s, chunk, actions[0]), chunk, actions[1..]);
    }
  }

  /** Exactly when a rename shows the whole chunk, however writes overlap, fail and leave files
      behind: if all of it was written since the file was last opened, by whichever writers,
      but for zeros before its end. */
  lemma RenameShowsChunkIff(s: State, chunk: bytes, actions: seq<Action>, w: Writer)
    requires Valid(s) && s.writers == map[] && CanRun(s, chunk, actions)
    requires var t := Run(s, chunk, actions); Enabled(t, chunk, Rename(w)) && t.tmp.Some?
    ensures var t := Run(s, chunk, actions);
            Seen(Step(t, chunk, Rename(w))) == Some(chunk) <==> Covered(t.since[t.tmp.value], chunk)
  {
    RunKeepsTmp(s, chunk, actions);
    var t := Run(s, chunk, actions);
    assert w in t.writers;
    CoveredIff(t.files[t.tmp.value], t.since[t.tmp.value], chunk);
  }

  /** No write starts while another is under way. */
  ghost predicate OneByOne(s: State, chunk: bytes, actions: seq<Action>)
    requires Valid(s) && CanRun(s, chunk, actions)
    decreases |actions|
  {
    actions != [] ==>
      && (actions[0].Open? ==> s.writers == map[])
      && (StepKeepsValid(s, chunk, actions[0]); OneByOne(Step(s, chunk, actions[0]), chunk, actions[1..]))
  }

  /** At most one write is under way; its file has what it wrote, under the temporary name. */
  ghost predicate Alone(s: State, chunk: bytes) {
    && Valid(s)
    && (forall w, w' | w in s.writers && w' in s.writers :: w == w')
    && (forall w | w in s.writers ::
          && s.tmp == Some(s.writers[w].file) && s.writers[w].n <= |chunk|
          && s.files[s.writers[w].file] == chunk[..s.writers[w].n])
  }

  /** One by one, a write is invisible until its rename, which shows the whole chunk. */
  lemma AloneStep(s: State, chunk: bytes, a: Action)
    requires Alone(s, chunk) && Enabled(s, chunk, a) && (a.Open? ==> s.writers == map[])
    ensures var t := Step(s, chunk, a);
            Alone(t, chunk) && Seen(t) == if a.Rename? then Some(chunk) else Seen(s)
  {
    var t := Step(s, chunk, a);
    if a.Fill? {
      var Handle(f, at) := s.writers[a.w];
      assert t.files[f] == chunk[..at + a.n];
    }
    if a.Rename? { assert chunk[..|chunk|] == chunk; }
  }

  /** So if the writes of a chunk do not overlap, readers find what there was at the start or
      the whole chunk, whatever fails in between: a write is one step, as in System. */
  lemma {:induction false} OneByOneIsAtomic(s: State, chunk: bytes, actions: seq<Action>)
    requires Alone(s, chunk) && CanRun(s, chunk, actions) && OneByOne(s, chunk, actions)
    ensures Alone(Run(s, chunk, actions), chunk)
    ensures Seen(Run(s, chunk, actions)) == if exists a | a in actions :: a.Rename? then Some(chunk) else Seen(s)
    decreases |actions|
  {
    if actions != [] {
      AloneStep(s, chunk, actions[0]);
      OneByOneIsAtomic(Step(s, chunk, actions[0]), chunk, actions[1..]);
      assert actions == [actions[0]] + actions[1..];
    }
  }

  /** The disk before the first write of the chunk. */
  function Fresh(): State {
    State(None, None, map[], map[], map[])
  }

  function Overlap(n: nat): seq<Action> {
    [Open(0, 0), Fill(0, n), Open(1, 1), Rename(0)]
  }

  lemma RunStep(s: State, chunk: bytes, a: Action, later: seq<Action>)
    requires Valid(s) && Enabled(s, chunk, a) && Valid(Step(s, chunk, a)) && CanRun(Step(s, chunk, a), chunk, later)
    ensures CanRun(s, chunk, [a] + later)
    ensures Run(s, chunk, [a] + later) == Run(Step(s, chunk, a), chunk, later)
  {
    assert ([a] + later)[1..] == later;
  }

  function Second(chunk: bytes): State {
    State(None, Some(0), map[0 := []], map[0 := Handle(0, |chunk|), 1 := Handle(0, 0)], map[0 := {}])
  }

  lemma FirstIsDone(chunk: bytes, later: seq<Action>)
    requires chunk != [] && Valid(Second(chunk)) && CanRun(Second(chunk), chunk, later)
    ensures Valid(Fresh()) && CanRun(Fresh(), chunk, [Open(0, 0)] + ([Fill(0, |chunk|)] + ([Open(1, 1)] + later)))
    ensures Run(Fresh(), chunk, [Open(0, 0)] + ([Fill(0, |chunk|)] + ([Open(1, 1)] + later))) ==
            Run(Second(chunk), chunk, later)
  {
    var first := State(None, Some(0), map[0 := []], map[0 := Handle(0, 0)], map[0 := {}]);
    var filled := Step(first, chunk, Fill(0, |chunk|));
    assert Step(Fresh(), chunk, Open(0, 0)) == first;
    assert Step(filled, chunk, Open(1, 1)) == Second(chunk);
    RunStep(filled, chunk, Open(1, 1), later);
    RunStep(first, chunk, Fill(0, |chunk|), [Open(1, 1)] + later);
    RunStep(Fresh(), chunk, Open(0, 0), [Fill(0, |chunk|)] + ([Open(1, 1)] + later));
  }

  lemma RenamedEmpty(chunk: bytes)
    requires chunk != []
    ensures Valid(Second(chunk)) && CanRun(Second(chunk), chunk, [Rename(0)])
    ensures Seen(Run(Second(chunk), chunk, [Rename(0)])) == Some([])
  {
    RunStep(Second(chunk), chunk, Rename(0), []);
    assert [Rename(0)] + [] == [Rename(0)];
  }

  lemma OverlapSplits(n: nat)
    ensures Overlap(n) == [Open(0, 0)] + ([Fill(0, n)] + ([Open(1, 1)] + [Rename(0)]))
  {
  }

  /** If they overlap this fails: one write is done with the file, a second one opens and so
      empties it, the first renames it, and readers find an empty file for the chunk. */
  lemma OverlapShowsNothing(chunk: bytes)
    requires chunk != []
    ensures Valid(Fresh()) && CanRun(Fresh(), chunk, Overlap(|chunk|))
    ensures Seen(Run(Fresh(), chunk, Overlap(|chunk|))) == Some([])
  {
    RenamedEmpty(chunk);
    FirstIsDone(chunk, [Rename(0)]);
    OverlapSplits(|chunk|);
  }
}
