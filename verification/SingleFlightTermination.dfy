/** The retry loop of the single-flight protocol terminates: for a fixed set of callers
    every run is finite, no state short of completion is stuck, each caller leads at most
    once, and there are at most as many GETs of a key as callers of it. */
module SingleFlightTermination {
  import opened Basics
  import opened SingleFlight
  import opened SingleFlightSafety

  // ---------------------------------------------------------------- the measure

  /** How far one call is from taking its next decisive step. A waiter whose flight has
      closed ranks above a caller at the top of the loop: waking it up is progress. */
  function Rank(s: State, c: Caller): (r: nat)
    requires c in s.calls
    ensures r <= 6
  {
    var call := s.calls[c];
    (if call.cancelled then 0 else 1) +
    match call.phase
    case Start => 4
    case Waiting(f) => if f in s.flights && s.flights[f].status.Closed? then 5 else 3
    case Leading(_) => 3
    case Fetched(_, _, _) => 2
    case Closing(_, _, _) => 1
    case Returned(_, _, _) => 0
  }

  function Ranks(s: State, cs: seq<Caller>): (r: nat)
    requires forall c | c in cs :: c in s.calls
    ensures r <= 6 * |cs|
  {
    if cs == [] then 0 else Rank(s, cs[0]) + Ranks(s, cs[1..])
  }

  /** How many calls have not returned: a failed flight costs one of them, its leader. */
  function Unfinished(s: State, cs: seq<Caller>): (r: nat)
    requires forall c | c in cs :: c in s.calls
    ensures r <= |cs|
  {
    if cs == [] then 0
    else (if s.calls[cs[0]].phase.Returned? then 0 else 1) + Unfinished(s, cs[1..])
  }

  function Measure(s: State, cs: seq<Caller>): nat
    requires forall c | c in cs :: c in s.calls
  {
    Unfinished(s, cs) * (6 * |cs| + 1) + Ranks(s, cs)
  }

  ghost predicate Lists(cs: seq<Caller>, callers: set<Caller>) {
    && (forall c :: c in cs <==> c in callers)
    && (forall i, j | 0 <= i < j < |cs| :: cs[i] != cs[j])
  }

  // ---------------------------------------------------------------- it decreases

  lemma RanksDrop(s: State, t: State, cs: seq<Caller>, c: Caller)
    requires forall d | d in cs :: d in s.calls && d in t.calls
    requires forall d | d in cs && d != c :: Rank(t, d) <= Rank(s, d)
    requires c in s.calls && c in t.calls && Rank(t, c) < Rank(s, c)
    ensures Ranks(t, cs) <= Ranks(s, cs)
    ensures c in cs ==> Ranks(t, cs) < Ranks(s, cs)
  {
    if cs != [] { RanksDrop(s, t, cs[1..], c); }
  }

  lemma UnfinishedDrops(s: State, t: State, cs: seq<Caller>, c: Caller)
    requires forall d | d in cs :: d in s.calls && d in t.calls
    requires forall d | d in cs && d != c :: t.calls[d].phase == s.calls[d].phase
    requires c in s.calls && c in t.calls
    requires s.calls[c].phase.Returned? ==> t.calls[c].phase.Returned?
    ensures Unfinished(t, cs) <= Unfinished(s, cs)
    ensures c in cs && t.calls[c].phase.Returned? && !s.calls[c].phase.Returned? ==>
              Unfinished(t, cs) < Unfinished(s, cs)
  {
    if cs != [] { UnfinishedDrops(s, t, cs[1..], c); }
  }

  /** One caller's move as the others see it: they keep their calls, and a flight keeps its
      identity and, once closed, everything. */
  ghost predicate Moves(s: State, t: State, c: Caller) {
    && c in s.calls && t.calls.Keys == s.calls.Keys
    && (forall d | d in s.calls && d != c :: t.calls[d] == s.calls[d])
    && t.calls[c].key == s.calls[c].key
    && (forall f | f in s.flights ::
          && f in t.flights
          && t.flights[f].key == s.flights[f].key && t.flights[f].leader == s.flights[f].leader
          && (s.flights[f].status.Closed? ==> t.flights[f] == s.flights[f]))
  }

  predicate Waits(s: State, c: Caller)
    requires c in s.calls
  {
    s.calls[c].phase.Waiting? ==> s.calls[c].phase.f in s.flights
  }

  lemma AttachMoves(s: State, c: Caller, f: FlightId)
    requires Inv(s) && Enabled(s, Attach(c, f))
    ensures Moves(s, DoAttach(s, c, f), c)
    ensures forall g | g in s.flights :: DoAttach(s, c, f).flights[g].status == s.flights[g].status
  {
    var key := s.calls[c].key;
    if key in s.inflight { assert KeyOk(s, key) && FlightOk(s, s.inflight[key]); }
  }

  lemma AttachLowers(s: State, c: Caller, f: FlightId)
    requires Inv(s) && Enabled(s, Attach(c, f))
    ensures Rank(DoAttach(s, c, f), c) < Rank(s, c)
  {
    var key := s.calls[c].key;
    if key in s.inflight { assert KeyOk(s, key); }
  }

  lemma WakeMoves(s: State, c: Caller)
    requires Inv(s) && Enabled(s, Wake(c))
    ensures Moves(s, DoWake(s, c), c) && DoWake(s, c).flights == s.flights
    ensures Rank(DoWake(s, c), c) < Rank(s, c)
  {
    assert CallOk(s, c);
  }

  lemma UnpublishMoves(s: State, c: Caller, copy: Addr)
    requires Inv(s) && Enabled(s, Unpublish(c, copy))
    ensures Moves(s, DoUnpublish(s, c, copy), c)
    ensures Rank(DoUnpublish(s, c, copy), c) < Rank(s, c)
  {
    assert CallOk(s, c);
  }

  lemma UnpublishClosesNone(s: State, c: Caller, copy: Addr)
    requires Inv(s) && Enabled(s, Unpublish(c, copy))
    ensures DoUnpublish(s, c, copy).flights.Keys == s.flights.Keys
    ensures forall g | g in s.flights ::
              DoUnpublish(s, c, copy).flights[g].status.Closed? ==> s.flights[g].status.Closed?
  {
    assert CallOk(s, c);
  }

  lemma CloseMoves(s: State, c: Caller)
    requires Inv(s) && Enabled(s, Close(c))
    ensures Moves(s, Step(s, Close(c)), c) && Step(s, Close(c)).flights.Keys == s.flights.Keys
  {
    assert CallOk(s, c);
  }

  lemma FillMoves(s: State, a: Action)
    requires Inv(s) && Enabled(s, a) && (a.GetOk? || a.GetFail?)
    ensures Moves(s, Step(s, a), a.c)
    ensures Step(s, a).flights == s.flights && Rank(Step(s, a), a.c) < Rank(s, a.c)
  {
    assert CallOk(s, a.c);
  }

  lemma QuitMoves(s: State, a: Action)
    requires Inv(s) && Enabled(s, a) && (a.GiveUp? || a.Cancel?)
    ensures Moves(s, Step(s, a), a.c)
    ensures Step(s, a).flights == s.flights && Rank(Step(s, a), a.c) < Rank(s, a.c)
  {
    assert CallOk(s, a.c);
  }

  lemma StepMoves(s: State, a: Action)
    requires Inv(s) && Enabled(s, a)
    ensures Moves(s, Step(s, a), a.c)
    ensures !a.Close? ==>
              && Rank(Step(s, a), a.c) < Rank(s, a.c)
              && forall f | f in s.flights :: Step(s, a).flights[f].status.Closed? ==> s.flights[f].status.Closed?
    ensures a.Close? ==> !s.calls[a.c].phase.Returned? && Step(s, a).calls[a.c].phase.Returned?
    ensures s.calls[a.c].phase.Returned? ==> Step(s, a).calls[a.c].phase.Returned?
  {
    match a
    case Attach(c, f) =>
      AttachMoves(s, c, f);
      AttachLowers(s, c, f);
    case Wake(c) => WakeMoves(s, c);
    case Unpublish(c, copy) =>
      UnpublishMoves(s, c, copy);
      UnpublishClosesNone(s, c, copy);
    case Close(c) => CloseMoves(s, c);
    case GetOk(_) => FillMoves(s, a);
    case GetFail(_, _) => FillMoves(s, a);
    case _ => QuitMoves(s, a);
  }

  lemma OthersDoNotRise(s: State, t: State, c: Caller, d: Caller)
    requires Moves(s, t, c) && d in s.calls && d != c && Waits(s, d)
    requires forall f | f in s.flights :: t.flights[f].status.Closed? ==> s.flights[f].status.Closed?
    ensures Rank(t, d) <= Rank(s, d)
  {
  }

  lemma AllWait(s: State)
    requires Inv(s)
    ensures forall d | d in s.calls :: Waits(s, d)
  {
    forall d | d in s.calls ensures Waits(s, d) { assert CallOk(s, d); }
  }

  lemma Lexicographic(u': nat, r': nat, u: nat, r: nat, w: nat)
    requires u' <= u && r' < w
    requires u' < u || r' < r
    ensures u' * w + r' < u * w + r
  {
    if u' < u {
      assert u' * w + w == (u' + 1) * w <= u * w;
    }
  }

  lemma MovesDropMeasure(s: State, t: State, c: Caller, cs: seq<Caller>, closes: bool)
    requires Moves(s, t, c) && Lists(cs, s.calls.Keys)
    requires forall d | d in s.calls :: Waits(s, d)
    requires s.calls[c].phase.Returned? ==> t.calls[c].phase.Returned?
    requires closes ==> !s.calls[c].phase.Returned? && t.calls[c].phase.Returned?
    requires !closes ==> Rank(t, c) < Rank(s, c)
    requires !closes ==> forall f | f in s.flights :: t.flights[f].status.Closed? ==> s.flights[f].status.Closed?
    ensures Measure(t, cs) < Measure(s, cs)
  {
    UnfinishedDrops(s, t, cs, c);
    if !closes {
      forall d | d in cs && d != c ensures Rank(t, d) <= Rank(s, d) { OthersDoNotRise(s, t, c, d); }
      RanksDrop(s, t, cs, c);
    }
    Lexicographic(Unfinished(t, cs), Ranks(t, cs), Unfinished(s, cs), Ranks(s, cs), 6 * |cs| + 1);
  }

  lemma MeasureDrops(s: State, a: Action, cs: seq<Caller>)
    requires Inv(s) && Enabled(s, a) && Lists(cs, s.calls.Keys)
    ensures Lists(cs, Step(s, a).calls.Keys)
    ensures Measure(Step(s, a), cs) < Measure(s, cs)
  {
    StepMoves(s, a);
    AllWait(s);
    MovesDropMeasure(s, Step(s, a), a.c, cs, a.Close?);
  }

  lemma MeasureBound(s: State, cs: seq<Caller>)
    requires forall c | c in cs :: c in s.calls
    ensures Measure(s, cs) < (|cs| + 1) * (6 * |cs| + 1)
  {
    var w := 6 * |cs| + 1;
    assert Unfinished(s, cs) * w <= |cs| * w;
    assert |cs| * w + w == (|cs| + 1) * w;
  }

  /** Every run of N callers, from any state and however the fetches, cancellations and
      wake-ups interleave, has fewer than (N + 1) * (6 * N + 1) actions. */
  lemma {:induction false} RunsAreFinite(s: State, actions: seq<Action>, cs: seq<Caller>)
    requires Inv(s) && CanRun(s, actions) && Lists(cs, s.calls.Keys)
    ensures |actions| <= Measure(s, cs) < (|cs| + 1) * (6 * |cs| + 1)
    decreases |actions|
  {
    MeasureBound(s, cs);
    if actions != [] {
      MeasureDrops(s, actions[0], cs);
      StepKeepsInv(s, actions[0]);
      RunsAreFinite(Step(s, actions[0]), actions[1..], cs);
    }
  }

  // ---------------------------------------------------------------- it is never stuck

  /** Which action an unfinished caller, or the leader it waits for, can take. */
  function Next(s: State, c: Caller, f: FlightId, copy: Addr): (a: Action)
    requires Inv(s) && c in s.calls && !s.calls[c].phase.Returned?
    requires f !in s.flights && copy !in s.mem
    ensures Enabled(s, a) && !a.Cancel? && !a.GiveUp?
    ensures a.c == c || (s.calls[c].phase.Waiting? && s.calls[c].phase.f in s.flights
                         && s.flights[s.calls[c].phase.f].leader == a.c)
  {
    assert CallOk(s, c);
    match s.calls[c].phase
    case Start => Attach(c, f)
    case Leading(_) => GetFail(c, s.mem[s.calls[c].buf].content)
    case Fetched(_, _, _) => Unpublish(c, copy)
    case Closing(_, _, _) => Close(c)
    case Waiting(g) =>
      assert FlightOk(s, g);
      if s.flights[g].status.Closed? then Wake(c)
      else
        var l := s.flights[g].leader;
        assert CallOk(s, l);
        match s.calls[l].phase
        case Leading(_) => GetFail(l, s.mem[s.calls[l].buf].content)
        case Fetched(_, _, _) => Unpublish(l, copy)
        case Closing(_, _, _) => Close(l)
  }

  lemma FreshNat(used: set<nat>)
    ensures exists n: nat :: n !in used
  {
    if forall n: nat :: n in used {
      AllBelow(used, |used| + 1);
      assert false;
    }
  }

  lemma AllBelow(used: set<nat>, n: nat)
    requires forall i: nat | i < n :: i in used
    ensures n <= |used|
  {
    if n > 0 {
      AllBelow(used - {n - 1}, n - 1);
    }
  }

  /** As long as some call has not returned there is an action that does not need anyone
      to be cancelled: no waiter is ever left on a flight that nobody will close. */
  lemma NeverStuck(s: State)
    requires Inv(s) && exists c | c in s.calls :: !s.calls[c].phase.Returned?
    ensures exists a :: Enabled(s, a) && !a.Cancel? && !a.GiveUp?
  {
    var c :| c in s.calls && !s.calls[c].phase.Returned?;
    FreshNat(s.flights.Keys);
    FreshNat(s.mem.Keys);
    var f: nat :| f !in s.flights.Keys;
    var copy: nat :| copy !in s.mem.Keys;
    var a := Next(s, c, f, copy);
  }

  // ---------------------------------------------------------------- how often a caller leads and waits

  /** The leader of a flight is a caller of its key that is past the top of the loop. */
  ghost predicate LeaderFact(s: State, f: FlightId)
    requires f in s.flights
  {
    var l := s.flights[f].leader;
    && l in s.calls && s.flights[f].key == s.calls[l].key
    && !s.calls[l].phase.Start? && !s.calls[l].phase.Waiting?
  }

  ghost predicate OneFlightPerLeader(s: State) {
    forall f, g | f in s.flights && g in s.flights && f != g :: s.flights[f].leader != s.flights[g].leader
  }

  /** A remembered flight is a closed, failed one of somebody else. */
  ghost predicate FailedFact(s: State, c: Caller)
    requires c in s.calls
  {
    forall f | f in s.calls[c].failed ::
      && f in s.flights && s.flights[f].status.Closed? && s.flights[f].err
      && s.flights[f].key == s.calls[c].key && s.flights[f].leader != c
  }

  /** What holds on every run that starts with no flight. */
  ghost predicate History(s: State) {
    && (forall f | f in s.flights :: LeaderFact(s, f))
    && OneFlightPerLeader(s)
    && (forall c | c in s.calls :: FailedFact(s, c))
  }

  lemma AttachKeepsHistory(s: State, c: Caller, f: FlightId)
    requires Inv(s) && History(s) && Enabled(s, Attach(c, f))
    ensures History(DoAttach(s, c, f))
  {
    AttachMoves(s, c, f);
    AttachEffect(s, c, f);
    MovesKeepHistory(s, DoAttach(s, c, f), c, f);
  }

  lemma AttachEffect(s: State, c: Caller, f: FlightId)
    requires Inv(s) && Enabled(s, Attach(c, f))
    ensures var t := DoAttach(s, c, f);
            && t.flights.Keys <= s.flights.Keys + {f}
            && (f in t.flights ==> t.flights[f] == Fresh(s.calls[c].key, c) && t.calls[c].phase == Leading(f))
            && t.calls[c].failed == s.calls[c].failed
  {
    var key := s.calls[c].key;
    if key in s.inflight { assert KeyOk(s, key); }
  }

  predicate AtTop(p: Phase) {
    p.Start? || p.Waiting?
  }

  /** A move keeps the history facts if a flight appears only with its caller as a first-time
      leader, a leader does not go back to the top, and only failed flights are remembered. */
  ghost predicate MovesWell(s: State, t: State, c: Caller, f: FlightId) {
    && Moves(s, t, c)
    && t.flights.Keys <= s.flights.Keys + {f}
    && (f in t.flights && f !in s.flights ==>
          t.flights[f] == Fresh(s.calls[c].key, c) && t.calls[c].phase == Leading(f) && AtTop(s.calls[c].phase))
    && (AtTop(t.calls[c].phase) ==> AtTop(s.calls[c].phase))
    && (t.calls[c].failed != s.calls[c].failed ==> AtTop(s.calls[c].phase))
    && (forall g | g in t.calls[c].failed && g !in s.calls[c].failed ::
          && g in s.flights && s.flights[g].status.Closed? && s.flights[g].err
          && s.flights[g].key == s.calls[c].key)
  }

  lemma NewcomersLeadNothing(s: State, c: Caller)
    requires History(s) && c in s.calls && AtTop(s.calls[c].phase)
    ensures forall g | g in s.flights :: s.flights[g].leader != c
  {
    forall g | g in s.flights ensures s.flights[g].leader != c { assert LeaderFact(s, g); }
  }

  lemma MoveKeepsLeaders(s: State, t: State, c: Caller, f: FlightId)
    requires MovesWell(s, t, c, f) && History(s)
    ensures forall g | g in t.flights :: LeaderFact(t, g)
    ensures OneFlightPerLeader(t)
  {
    if AtTop(s.calls[c].phase) { NewcomersLeadNothing(s, c); }
    forall g | g in t.flights ensures LeaderFact(t, g) {
      if g in s.flights { assert LeaderFact(s, g); }
    }
  }

  lemma MoveKeepsFailed(s: State, t: State, c: Caller, f: FlightId, d: Caller)
    requires MovesWell(s, t, c, f) && History(s) && d in t.calls
    ensures FailedFact(t, d)
  {
    assert FailedFact(s, d);
    if AtTop(s.calls[c].phase) { NewcomersLeadNothing(s, c); }
  }

  lemma MovesKeepHistory(s: State, t: State, c: Caller, f: FlightId)
    requires MovesWell(s, t, c, f) && History(s)
    ensures History(t)
  {
    MoveKeepsLeaders(s, t, c, f);
    forall d | d in t.calls ensures FailedFact(t, d) { MoveKeepsFailed(s, t, c, f, d); }
  }

  lemma WakeEffect(s: State, c: Caller)
    requires Inv(s) && Enabled(s, Wake(c))
    ensures var t := DoWake(s, c);
            && (forall g | g in t.calls[c].failed && g !in s.calls[c].failed ::
                  s.flights[g].status.Closed? && s.flights[g].err && s.flights[g].key == s.calls[c].key)
            && t.calls[c].failed <= s.calls[c].failed + {s.calls[c].phase.f}
  {
    assert CallOk(s, c);
  }

  lemma WakeMovesWell(s: State, c: Caller)
    requires Inv(s) && Enabled(s, Wake(c))
    ensures MovesWell(s, DoWake(s, c), c, s.calls[c].phase.f)
  {
    assert CallOk(s, c);
    WakeMoves(s, c);
    WakeEffect(s, c);
  }

  lemma WakeKeepsHistory(s: State, c: Caller)
    requires Inv(s) && History(s) && Enabled(s, Wake(c))
    ensures History(DoWake(s, c))
  {
    WakeMovesWell(s, c);
    MovesKeepHistory(s, DoWake(s, c), c, s.calls[c].phase.f);
  }

  lemma SettleEffect(s: State, a: Action)
    requires Inv(s) && Enabled(s, a) && !a.Attach? && !a.Wake?
    ensures Step(s, a).flights.Keys == s.flights.Keys && a.c in Step(s, a).calls
    ensures Step(s, a).calls[a.c].failed == s.calls[a.c].failed
    ensures Step(s, a).calls[a.c].phase.Start? || Step(s, a).calls[a.c].phase.Waiting? ==>
              Step(s, a).calls[a.c].phase == s.calls[a.c].phase
  {
    assert CallOk(s, a.c);
  }

  lemma SettleKeepsHistory(s: State, a: Action, f: FlightId)
    requires Inv(s) && History(s) && Enabled(s, a) && !a.Attach? && !a.Wake?
    ensures History(Step(s, a))
  {
    StepMoves(s, a);
    SettleEffect(s, a);
    MovesKeepHistory(s, Step(s, a), a.c, f);
  }

  lemma StepKeepsHistory(s: State, a: Action)
    requires Inv(s) && History(s) && Enabled(s, a)
    ensures History(Step(s, a))
  {
    match a
    case Attach(c, f) => AttachKeepsHistory(s, c, f);
    case Wake(c) => WakeKeepsHistory(s, c);
    case _ => SettleKeepsHistory(s, a, 0);
  }

  lemma {:induction false} RunKeepsHistory(s: State, actions: seq<Action>)
    requires Inv(s) && CanRun(s, actions) && History(s)
    ensures History(Run(s, actions)) && Run(s, actions).calls.Keys == s.calls.Keys
    decreases |actions|
  {
    if actions != [] {
      var a := actions[0];
      StepKeepsHistory(s, a);
      StepMoves(s, a);
      StepKeepsInv(s, a);
      RunKeepsHistory(Step(s, a), actions[1..]);
    }
  }

  /** An injective image is as large as its source. */
  lemma LeadersAreMany(flights: map<FlightId, Flight>, fs: set<FlightId>, callers: set<Caller>)
    requires fs <= flights.Keys
    requires forall f | f in fs :: flights[f].leader in callers
    requires forall f, g | f in fs && g in fs && f != g :: flights[f].leader != flights[g].leader
    ensures |fs| <= |callers|
    decreases |fs|
  {
    if fs != {} {
      var f :| f in fs;
      LeadersAreMany(flights, fs - {f}, callers - {flights[f].leader});
    }
  }

  ghost function CallersOf(s: State, k: ChunkKey): set<Caller> {
    set c | c in s.calls && s.calls[c].key == k
  }

  ghost function FlightsOf(s: State, k: ChunkKey): set<FlightId> {
    set f | f in s.flights && s.flights[f].key == k
  }

  lemma GetCount(s: State, k: ChunkKey)
    requires History(s)
    ensures |FlightsOf(s, k)| <= |CallersOf(s, k)|
  {
    forall f | f in FlightsOf(s, k) ensures s.flights[f].leader in CallersOf(s, k) { assert LeaderFact(s, f); }
    LeadersAreMany(s.flights, FlightsOf(s, k), CallersOf(s, k));
  }

  lemma FailedCount(s: State, c: Caller)
    requires History(s) && c in s.calls
    ensures |s.calls[c].failed| <= |CallersOf(s, s.calls[c].key)| - 1
  {
    var others := CallersOf(s, s.calls[c].key) - {c};
    assert FailedFact(s, c);
    forall f | f in s.calls[c].failed ensures s.flights[f].leader in others { assert LeaderFact(s, f); }
    LeadersAreMany(s.flights, s.calls[c].failed, others);
  }

  /** From the start of N callers: a flight is one GET, so a key is fetched at most as often
      as it has callers, each caller leads at most once, and each waits on at most as many
      failed flights as there are other callers of its key. */
  lemma AtMostOneGetPerCaller(s: State, actions: seq<Action>, k: ChunkKey)
    requires Initial(s) && Inv(s) && CanRun(s, actions)
    ensures var t := Run(s, actions);
            && |FlightsOf(t, k)| <= |CallersOf(t, k)|
            && OneFlightPerLeader(t)
            && (forall c | c in t.calls :: |t.calls[c].failed| <= |CallersOf(t, t.calls[c].key)| - 1)
  {
    RunKeepsHistory(s, actions);
    var t := Run(s, actions);
    GetCount(t, k);
    forall c | c in t.calls ensures |t.calls[c].failed| <= |CallersOf(t, t.calls[c].key)| - 1 {
      FailedCount(t, c);
    }
  }
}
