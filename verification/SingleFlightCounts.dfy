/** What a flight's counter of waiters and a caller's history of failed flights count, over every
    run of the fetch protocol. */
module SingleFlightCounts {
  import opened SingleFlight
  import opened SingleFlightSafety
  import opened SingleFlightTermination

  // ---------------------------------------------------------------- waiters

  /** The action is a caller's that finds flight f in the map and joins it. */
  predicate JoinsNow(s: State, a: Action, f: FlightId) {
    && a.Attach? && a.c in s.calls
    && s.calls[a.c].key in s.inflight && s.inflight[s.calls[a.c].key] == f
  }

  /** How many callers join flight f in the course of a run. */
  ghost function Joins(s: State, actions: seq<Action>, f: FlightId): nat
    requires Inv(s) && CanRun(s, actions)
    decreases |actions|
  {
    if actions == [] then 0
    else
      StepKeepsInv(s, actions[0]);
      (if JoinsNow(s, actions[0], f) then 1 else 0) + Joins(Step(s, actions[0]), actions[1..], f)
  }

  function WaitersOf(s: State, f: FlightId): nat {
    if f in s.flights then s.flights[f].waiters else 0
  }

  lemma StepJoins(s: State, a: Action, f: FlightId)
    requires Inv(s) && Enabled(s, a)
    ensures WaitersOf(Step(s, a), f) == WaitersOf(s, f) + if JoinsNow(s, a, f) then 1 else 0
  {
    assert CallOk(s, a.c);
    if a.Attach? && s.calls[a.c].key in s.inflight { assert KeyOk(s, s.calls[a.c].key); }
  }

  /** The counter of waiters counts exactly those that joined. */
  lemma {:induction false} WaitersAreJoins(s: State, actions: seq<Action>, f: FlightId)
    requires Inv(s) && CanRun(s, actions)
    ensures WaitersOf(Run(s, actions), f) == WaitersOf(s, f) + Joins(s, actions, f)
    decreases |actions|
  {
    if actions != [] {
      StepKeepsInv(s, actions[0]);
      StepJoins(s, actions[0], f);
      WaitersAreJoins(Step(s, actions[0]), actions[1..], f);
    }
  }

  /** So over every run a leader copies the bytes out if and only if its GET succeeded and some
      caller has joined its flight. */
  lemma CopyIffJoined(s: State, actions: seq<Action>, c: Caller, copy: Addr)
    requires Initial(s) && Inv(s) && CanRun(s, actions) && Enabled(Run(s, actions), Unpublish(c, copy))
    ensures var u := Run(s, actions);
            copy in Step(u, Unpublish(c, copy)).mem <==>
            u.calls[c].phase.ok && Joins(s, actions, u.calls[c].phase.f) > 0
  {
    var u := Run(s, actions);
    WaitersAreJoins(s, actions, u.calls[c].phase.f);
    assert CallOk(u, c);
    CopyIffAwaited(u, c, copy);
  }

  // ---------------------------------------------------------------- retries

  /** The action is caller c's that finds its flight failed and goes round the loop. */
  ghost predicate RetriesNow(s: State, a: Action, c: Caller)
    requires Inv(s) && Enabled(s, a)
  {
    a == Wake(c) && c in Step(s, a).calls && Step(s, a).calls[c].phase.Start?
  }

  ghost function Retries(s: State, actions: seq<Action>, c: Caller): nat
    requires Inv(s) && CanRun(s, actions)
    decreases |actions|
  {
    if actions == [] then 0
    else
      StepKeepsInv(s, actions[0]);
      (if RetriesNow(s, actions[0], c) then 1 else 0) + Retries(Step(s, actions[0]), actions[1..], c)
  }

  /** Nobody waits on a flight that has failed it before. */
  ghost predicate FreshWait(s: State, c: Caller)
    requires c in s.calls
  {
    s.calls[c].phase.Waiting? ==> s.calls[c].phase.f !in s.calls[c].failed
  }

  lemma AttachWaitsFresh(s: State, c: Caller, f: FlightId)
    requires Inv(s) && History(s) && Enabled(s, Attach(c, f)) && FreshWait(s, c)
    ensures c in DoAttach(s, c, f).calls && FreshWait(DoAttach(s, c, f), c)
    ensures DoAttach(s, c, f).calls[c].failed == s.calls[c].failed
  {
    var key := s.calls[c].key;
    assert FailedFact(s, c);
    if key in s.inflight { assert KeyOk(s, key); }
  }

  lemma WakeCounts(s: State, c: Caller)
    requires Inv(s) && Enabled(s, Wake(c)) && FreshWait(s, c)
    ensures c in DoWake(s, c).calls && FreshWait(DoWake(s, c), c)
    ensures |DoWake(s, c).calls[c].failed| ==
            |s.calls[c].failed| + if DoWake(s, c).calls[c].phase.Start? then 1 else 0
  {
    assert CallOk(s, c);
  }

  lemma StepCounts(s: State, a: Action, c: Caller)
    requires Inv(s) && History(s) && Enabled(s, a) && c in s.calls && FreshWait(s, c)
    ensures c in Step(s, a).calls && FreshWait(Step(s, a), c)
    ensures |Step(s, a).calls[c].failed| == |s.calls[c].failed| + if RetriesNow(s, a, c) then 1 else 0
  {
    if a.c != c {
      OthersStay(s, a, c);
    } else if a.Attach? {
      AttachWaitsFresh(s, c, a.f);
    } else if a.Wake? {
      WakeCounts(s, c);
    } else {
      SettleEffect(s, a);
    }
  }

  lemma {:induction false} FailedAreRetries(s: State, actions: seq<Action>, c: Caller)
    requires Inv(s) && History(s) && CanRun(s, actions) && c in s.calls && FreshWait(s, c)
    ensures c in Run(s, actions).calls
    ensures |Run(s, actions).calls[c].failed| == |s.calls[c].failed| + Retries(s, actions, c)
    decreases |actions|
  {
    if actions != [] {
      var a := actions[0];
      StepKeepsInv(s, a);
      StepCounts(s, a, c);
      StepKeepsHistory(s, a);
      FailedAreRetries(Step(s, a), actions[1..], c);
    }
  }

  /** Over every run a caller goes round the loop at most as often as its key has other callers. */
  lemma RetriesAreFew(s: State, actions: seq<Action>, c: Caller)
    requires Initial(s) && Inv(s) && CanRun(s, actions) && c in s.calls
    ensures c in Run(s, actions).calls
    ensures Retries(s, actions, c) <= |CallersOf(Run(s, actions), Run(s, actions).calls[c].key)| - 1
  {
    FailedAreRetries(s, actions, c);
    AtMostOneGetPerCaller(s, actions, s.calls[c].key);
  }
}
