/** Nobody fails because of somebody else: what an error of a call, or a response that fails,
    must have as its cause. */
module SystemFailures {
  import opened Basics
  import opened System
  import opened SystemSafety
  import opened SystemTheorems
  import opened SystemTermination
  import SF = SingleFlight
  import Safe = SingleFlightSafety
  import Env = SingleFlightEnv

  // ---------------------------------------------------------------- one call

  /** The call is cancelled, or a GET of its own fails. */
  predicate HarmsCall(step: SF.Action, c: SF.Caller) {
    step.c == c && (step.Cancel? || step.GetFail?)
  }

  predicate Spared(call: SF.Call) {
    && !call.cancelled
    && match call.phase
       case Fetched(_, _, ok) => ok
       case Closing(_, _, ok) => ok
       case Returned(_, _, ok) => ok
       case _ => true
  }

  lemma OwnStepSpares(s: SF.State, step: SF.Action)
    requires SF.Inv(s) && SF.Enabled(s, step) && Spared(s.calls[step.c]) && !HarmsCall(step, step.c)
    ensures step.c in SF.Step(s, step).calls && Spared(SF.Step(s, step).calls[step.c])
  {
  }

  lemma OtherStepSpares(s: SF.State, step: SF.Action, c: SF.Caller)
    requires SF.Inv(s) && SF.Enabled(s, step) && c in s.calls && c != step.c
    ensures c in SF.Step(s, step).calls && SF.Step(s, step).calls[c] == s.calls[c]
  {
  }

  lemma StepSpares(s: SF.State, step: SF.Action, c: SF.Caller)
    requires SF.Inv(s) && SF.Enabled(s, step) && c in s.calls && Spared(s.calls[c]) && !HarmsCall(step, c)
    ensures c in SF.Step(s, step).calls && Spared(SF.Step(s, step).calls[c])
  {
    if c == step.c { OwnStepSpares(s, step); } else { OtherStepSpares(s, step, c); }
  }

  /** What the retry is for: over every run, a call that was not cancelled, and whose own GETs
      did not fail, returns no error, whatever became of the flights that it waited on. */
  lemma {:induction false} ErrorsAreOnesOwn(s: SF.State, actions: seq<SF.Action>, c: SF.Caller)
    requires SF.Inv(s) && Safe.CanRun(s, actions) && c in s.calls && Spared(s.calls[c])
    requires forall a | a in actions :: !HarmsCall(a, c)
    ensures c in Safe.Run(s, actions).calls && Spared(Safe.Run(s, actions).calls[c])
    decreases |actions|
  {
    if actions != [] {
      Safe.StepKeepsInv(s, actions[0]);
      StepSpares(s, actions[0], c);
      ErrorsAreOnesOwn(SF.Step(s, actions[0]), actions[1..], c);
    }
  }

  // ---------------------------------------------------------------- one response or job

  /** The client goes away, or the task's own call is cancelled or has a GET that fails. */
  predicate Harms(a: Action, t: TaskId) {
    match a
    case Disconnect(x, _) => x == t
    case Protocol(step) => HarmsCall(step, t)
    case _ => false
  }

  predicate Untroubled(s: State, t: TaskId) {
    t in s.tasks && !s.tasks[t].phase.Failed? && (t in s.sf.calls ==> Spared(s.sf.calls[t]))
  }

  lemma ReturnSpares(s: State, t: TaskId, a: Addr)
    requires Inv(s) && Enabled(s, Return(t, a)) && Untroubled(s, t)
    ensures Untroubled(DoReturn(s, t, a), t)
  {
    assert TaskOk(s, t) && SF.CallOk(s.sf, t);
    ReturnTurns(s, t, a);
    if s.sf.calls[t].phase.joined && s.tasks[t].Handler? {
      JoinedEffect(s, t, a);
    } else {
      LedEffect(s, t, a);
    }
  }

  lemma AcquireSpares(s: State, t: TaskId, buf: Addr)
    requires Inv(s) && Enabled(s, Acquire(t, buf)) && Untroubled(s, t)
    ensures Untroubled(DoAcquire(s, t, buf), t)
  {
    assert TaskOk(s, t);
  }

  lemma ProtocolSpares(s: State, step: SF.Action, t: TaskId)
    requires Inv(s) && Enabled(s, Protocol(step)) && Untroubled(s, t) && !HarmsCall(step, t)
    ensures Untroubled(Step(s, Protocol(step)), t)
  {
    if t in s.sf.calls {
      StepSpares(s.sf, step, t);
    } else {
      Env.StepKeeps(s.sf, step);
    }
  }

  /** Its other steps start no call and end none, and do not fail. */
  lemma PlainStepSpares(s: State, a: Action)
    requires Inv(s) && Enabled(s, a) && (a.Look? || a.ReadCold? || a.ReadFails? || a.Store? || a.Write?)
    requires Untroubled(s, a.t)
    ensures Untroubled(Step(s, a), a.t)
  {
    assert TaskOk(s, a.t);
  }

  predicate OwnStep(a: Action, t: TaskId) {
    !a.Protocol? && !a.ColdWrite? && !a.ColdFail? && a.t == t
  }

  lemma OwnTaskSpares(s: State, a: Action, t: TaskId)
    requires Inv(s) && Enabled(s, a) && Untroubled(s, t) && !Harms(a, t) && OwnStep(a, t)
    ensures Untroubled(Step(s, a), t)
  {
    match a
    case Return(_, addr) => ReturnSpares(s, t, addr);
    case Acquire(_, buf) => AcquireSpares(s, t, buf);
    case _ => PlainStepSpares(s, a);
  }

  lemma OtherBufferStepSpares(s: State, a: Action, t: TaskId)
    requires Inv(s) && Enabled(s, a) && Untroubled(s, t) && (a.Return? || a.Acquire? || a.Store?) && a.t != t
    ensures Untroubled(Step(s, a), t)
  {
    assert TaskOk(s, a.t);
    if a.Return? { ReturnTurns(s, a.t, a.a); }
  }

  /** A step of another task, or of a background write, leaves the task and its call alone. */
  lemma OtherTaskSpares(s: State, a: Action, t: TaskId)
    requires Inv(s) && Enabled(s, a) && Untroubled(s, t) && !OwnStep(a, t) && !a.Protocol?
    ensures Untroubled(Step(s, a), t)
  {
    if a.Return? || a.Acquire? || a.Store? {
      OtherBufferStepSpares(s, a, t);
    } else if a.ReadCold? {
      assert TaskOk(s, a.t);
    }
  }

  lemma TaskStepSpares(s: State, a: Action, t: TaskId)
    requires Inv(s) && Enabled(s, a) && Untroubled(s, t) && !Harms(a, t)
    ensures Untroubled(Step(s, a), t)
  {
    if a.Protocol? {
      ProtocolSpares(s, a.step, t);
    } else if OwnStep(a, t) {
      OwnTaskSpares(s, a, t);
    } else {
      OtherTaskSpares(s, a, t);
    }
  }

  lemma {:induction false} RunSpares(s: State, actions: seq<Action>, t: TaskId)
    requires Inv(s) && CanRun(s, actions) && Untroubled(s, t) && forall a | a in actions :: !Harms(a, t)
    ensures Untroubled(Run(s, actions), t)
    decreases |actions|
  {
    if actions != [] {
      StepKeepsInv(s, actions[0]);
      TaskStepSpares(s, actions[0], t);
      RunSpares(Step(s, actions[0]), actions[1..], t);
    }
  }

  /** A response whose client stays, and whose own call is neither cancelled nor has a GET that
      fails, is complete once the proxy has come to rest: whatever happens to other requests,
      other calls for the same chunks, the disk and the background writes. */
  lemma UntroubledIsServed(s: State, actions: seq<Action>, t: TaskId)
    requires Inv(s) && CanRun(s, actions) && Untroubled(s, t) && AtRest(Run(s, actions))
    requires forall a | a in actions :: !Harms(a, t)
    ensures t in Run(s, actions).tasks
    ensures var task := Run(s, actions).tasks[t];
            && task.phase.Finished?
            && (task.Handler? ==>
                  && task.key in Run(s, actions).sf.objects
                  && var content := Run(s, actions).sf.objects[task.key];
                     task.start <= task.end < |content| && task.body == content[task.start..task.end + 1])
  {
    RunSpares(s, actions, t);
    RestMeansDone(Run(s, actions));
    assert TaskOk(Run(s, actions), t);
  }
}
