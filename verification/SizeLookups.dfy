/** Concurrent lookups of one object's size: looking into the map of sizes, the HEAD, and
    storing its answer are separate steps of each caller. */
module SizeLookups {
  import opened Basics

  type Caller = nat

  datatype Phase =
    | Start
    | Asking                         // not in the map: the HEAD is under way
    | Told(size: int)                // the HEAD was answered, its answer is not stored yet
    | Returned(result: Option<int>)

  // answered counts the HEADs that were answered; early is history: the callers that looked
  // into the map before any answer was stored.
  datatype State = State(size: int, known: Option<int>, callers: map<Caller, Phase>, answered: nat,
                         early: set<Caller>)

  datatype Action =
    | Load(c: Caller)
    | HeadOk(c: Caller)
    | HeadFail(c: Caller)
    | Store(c: Caller)

  predicate Enabled(s: State, a: Action) {
    && a.c in s.callers
    && match a
       case Load(c) => s.callers[c].Start?
       case HeadOk(c) => s.callers[c].Asking?
       case HeadFail(c) => s.callers[c].Asking?
       case Store(c) => s.callers[c].Told?
  }

  function Go(s: State, c: Caller, p: Phase): State {
    s.(callers := s.callers[c := p])
  }

  function Step(s: State, a: Action): State
    requires Enabled(s, a)
  {
    match a
    case Load(c) =>
      if s.known.Some? then Go(s, c, Returned(s.known)) else Go(s.(early := s.early + {c}), c, Asking)
    case HeadOk(c) => Go(s.(answered := s.answered + 1), c, Told(s.size))
    case HeadFail(c) => Go(s, c, Returned(None))
    case Store(c) => Go(s.(known := Some(s.callers[c].size)), c, Returned(Some(s.callers[c].size)))
  }

  /** The callers that were told by a HEAD, each by one. */
  ghost function ToldOnes(s: State): set<Caller> {
    set c | c in s.early && c in s.callers && !s.callers[c].Asking?
  }

  ghost predicate Inv(s: State) {
    && (s.known.Some? ==> s.known == Some(s.size))
    && (forall c | c in s.callers && s.callers[c].Told? :: s.callers[c].size == s.size)
    && (forall c | c in s.callers && s.callers[c].Returned? && s.callers[c].result.Some? ::
          s.callers[c].result == Some(s.size))
    && (forall c | c in s.early :: c in s.callers && !s.callers[c].Start?)
    && (forall c | c in s.callers && (s.callers[c].Asking? || s.callers[c].Told?) :: c in s.early)
    && s.answered <= |ToldOnes(s)|
  }

  lemma ToldMore(s: State, t: State, c: Caller)
    requires t.early == s.early && c in s.early && c in s.callers && s.callers[c].Asking?
    requires t.callers.Keys == s.callers.Keys && !t.callers[c].Asking?
    requires forall d | d in s.callers && d != c :: t.callers[d] == s.callers[d]
    ensures |ToldOnes(t)| == |ToldOnes(s)| + 1
  {
    assert ToldOnes(t) == ToldOnes(s) + {c};
  }

  lemma StepKeepsInv(s: State, a: Action)
    requires Inv(s) && Enabled(s, a)
    ensures Inv(Step(s, a)) && Step(s, a).size == s.size && Step(s, a).callers.Keys == s.callers.Keys
    ensures s.early <= Step(s, a).early && (s.known.Some? ==> Step(s, a).early == s.early)
  {
    var t := Step(s, a);
    match a
    case Load(c) => assert ToldOnes(t) == ToldOnes(s);
    case HeadOk(c) => ToldMore(s, t, c);
    case HeadFail(c) => ToldMore(s, t, c);
    case Store(c) => assert ToldOnes(t) == ToldOnes(s);
  }

  predicate CanRun(s: State, actions: seq<Action>)
    decreases |actions|
  {
    actions != [] ==> Enabled(s, actions[0]) && CanRun(Step(s, actions[0]), actions[1..])
  }

  function Run(s: State, actions: seq<Action>): State
    requires CanRun(s, actions)
    decreases |actions|
  {
    if actions == [] then s else Run(Step(s, actions[0]), actions[1..])
  }

  predicate Initial(s: State) {
    s.known == None && s.answered == 0 && s.early == {} && forall c | c in s.callers :: s.callers[c].Start?
  }

  lemma {:induction false} RunKeepsInv(s: State, actions: seq<Action>)
    requires Inv(s) && CanRun(s, actions)
    ensures Inv(Run(s, actions)) && Run(s, actions).size == s.size
    ensures s.known.Some? ==> Run(s, actions).early == s.early
    decreases |actions|
  {
    if actions != [] {
      StepKeepsInv(s, actions[0]);
      assert s.known.Some? ==> Step(s, actions[0]).known.Some?;
      RunKeepsInv(Step(s, actions[0]), actions[1..]);
    }
  }

  /** However lookups interleave, every size that is returned is the true one, and the HEADs
      that were answered are no more than the callers that looked before one was stored. */
  lemma LookupsAreTrue(s: State, actions: seq<Action>, c: Caller)
    requires Initial(s) && CanRun(s, actions) && c in Run(s, actions).callers
    ensures var t := Run(s, actions);
            && (t.callers[c].Returned? && t.callers[c].result.Some? ==> t.callers[c].result == Some(s.size))
            && t.answered <= |t.early|
  {
    RunKeepsInv(s, actions);
    var t := Run(s, actions);
    assert ToldOnes(t) <= t.early;
    Smaller(ToldOnes(t), t.early);
  }

  lemma Smaller(a: set<Caller>, b: set<Caller>)
    requires a <= b
    ensures |a| <= |b|
  {
    assert b == a + (b - a);
  }

  /** Once an answer is stored, no further caller sends a HEAD. */
  lemma StoredEndsHeads(s: State, actions: seq<Action>)
    requires Inv(s) && s.known.Some? && CanRun(s, actions)
    ensures Run(s, actions).answered <= |s.early|
  {
    RunKeepsInv(s, actions);
    var t := Run(s, actions);
    assert ToldOnes(t) <= t.early;
    Smaller(ToldOnes(t), t.early);
  }

  /** Two first lookups at once can both have their HEAD answered. */
  lemma TwoHeadsAtOnce(size: int)
    ensures var s := State(size, None, map[0 := Start, 1 := Start], 0, {});
            var actions := [Load(0), Load(1), HeadOk(0), HeadOk(1)];
            Initial(s) && CanRun(s, actions) && Run(s, actions).answered == 2
  {
    var s := State(size, None, map[0 := Start, 1 := Start], 0, {});
    var actions := [Load(0), Load(1), HeadOk(0), HeadOk(1)];
    var s1 := Step(s, actions[0]);
    var s2 := Step(s1, actions[1]);
    var s3 := Step(s2, actions[2]);
    var s4 := Step(s3, actions[3]);
    assert actions[1..] == [Load(1), HeadOk(0), HeadOk(1)];
    assert actions[1..][1..] == [HeadOk(0), HeadOk(1)];
    assert actions[1..][1..][1..] == [HeadOk(1)];
    assert actions[1..][1..][1..][1..] == [];
  }
}
