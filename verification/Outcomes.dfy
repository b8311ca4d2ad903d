/** Every outcome of a fiber reaches one join or is given up; every future delivers what was set. */
module Outcomes {
  import opened Wrappers
  import opened Runtime
  import opened Placement
  import opened Invariant
  import opened Runs
  import opened Traces

  // ---------------------------------------------------------------- joins

  datatype Fate = Delivered(args: Args) | Discarded

  /** The outcome with which `t` ends in this step, if it does. */
  ghost function Ends(s: State, a: Action, t: Fiber): seq<Outcome> {
    if a.Finish? && Enabled(s, a) && s.control.fiber == t then [a.outcome] else []
  }

  ghost predicate Collects(s: State, a: Action, t: Fiber) {
    (a.Join? || a.Detach? || a.GcHandle?) && a.handle in s.handles && s.handles[a.handle].fiber == Some(t)
  }

  /** What becomes of the outcome of `t` in this step, as its joiner or the detacher sees it. */
  ghost function Fates(s: State, a: Action, t: Fiber): seq<Fate> {
    var (s', r) := Step(s, a);
    if a.Finish? && Enabled(s, a) && s.control.fiber == t then
      if s'.control.Active? then [Delivered(s'.control.args)]
      else if t in s'.fibers then []
      else [Discarded]
    else if Collects(s, a, t) && r.JoinReply? then [Delivered(r.args)]
    else if Collects(s, a, t) && t in s.fibers && t !in s'.fibers then [Discarded]
    else []
  }

  ghost function EndsIn(s: State, run: seq<Action>, t: Fiber): seq<Outcome>
    decreases |run|
  {
    if run == [] then [] else Ends(s, run[0], t) + EndsIn(Next(s, run[0]), run[1..], t)
  }

  ghost function FatesIn(s: State, run: seq<Action>, t: Fiber): seq<Fate>
    decreases |run|
  {
    if run == [] then [] else Fates(s, run[0], t) + FatesIn(Next(s, run[0]), run[1..], t)
  }

  datatype Phase = Live | Held(outcome: Outcome) | Gone

  /** Running; finished with its handle still there; or finished and over. */
  function PhaseOf(s: State, t: Fiber): Phase {
    if t !in s.fibers then Gone
    else match s.fibers[t].status
      case Running => Live
      case Finished(o) => if t in s.handles && s.handles[t].fiber == Some(t) then Held(o) else Gone
  }

  /** What a joiner is to find: true and the results, true alone for an interruption, false and any other error. */
  ghost predicate Tells(args: Args, o: Outcome) {
    match o
    case Returned(v) => args.JoinOk? && args.result == v
    case Raised(e) => if e.InterruptedError? then args.JoinCaught? else args.JoinError? && args.reason == e
  }

  /** `interruption_caught` of the handle of `t`. */
  function CaughtOf(s: State, t: Fiber): Option<bool> {
    if t in s.handles then s.handles[t].interruptionCaught else None
  }

  /** Delivered once, and noted on the handle, or given up, and nothing noted. */
  ghost predicate Settled(o: Outcome, fates: seq<Fate>, before: Option<bool>, after: Option<bool>) {
    || (|fates| == 1 && fates[0].Delivered? && Tells(fates[0].args, o) && after == Some(o == Raised(InterruptedError)))
    || (fates == [Discarded] && after == before)
  }

  /** What may be seen of a fiber, and of its handle, between two points of its life. */
  ghost predicate History(before: Phase, after: Phase, ends: seq<Outcome>, fates: seq<Fate>,
                          noted: Option<bool>, noted': Option<bool>) {
    match before
    case Live =>
      || (after == Live && ends == [] && fates == [] && noted' == noted)
      || (|ends| == 1 && after == Held(ends[0]) && fates == [] && noted' == noted)
      || (|ends| == 1 && after == Gone && Settled(ends[0], fates, noted, noted'))
    case Held(o) =>
      ends == [] && ((after == Held(o) && fates == [] && noted' == noted) || (after == Gone && Settled(o, fates, noted, noted')))
    case Gone =>
      after == Gone && ends == [] && fates == [] && noted' == noted
  }

  /** How one step may change the phase of `t`, and what is seen of it. */
  ghost predicate PhaseStep(s: State, a: Action, t: Fiber) {
    History(PhaseOf(s, t), PhaseOf(Next(s, a), t), Ends(s, a, t), Fates(s, a, t), CaughtOf(s, t), CaughtOf(Next(s, a), t))
  }

  lemma HistoryChain(p: Phase, q: Phase, r: Phase, ends: seq<Outcome>, fates: seq<Fate>, moreEnds: seq<Outcome>,
                     moreFates: seq<Fate>, n: Option<bool>, n': Option<bool>, n'': Option<bool>)
    requires History(p, q, ends, fates, n, n') && History(q, r, moreEnds, moreFates, n', n'')
    ensures History(p, r, ends + moreEnds, fates + moreFates, n, n'')
  {
    assert ends == [] ==> ends + moreEnds == moreEnds;
    assert fates == [] ==> fates + moreFates == moreFates;
    assert moreEnds == [] ==> ends + moreEnds == ends;
    assert moreFates == [] ==> fates + moreFates == fates;
  }

  /** Neither the listed status of `t` nor its handle changes. */
  ghost predicate Indifferent(s: State, s': State, t: Fiber) {
    && (t in s'.fibers <==> t in s.fibers)
    && (t in s.fibers ==> s'.fibers[t].status == s.fibers[t].status)
    && (t in s.handles && s.handles[t].fiber == Some(t) <==> t in s'.handles && s'.handles[t].fiber == Some(t))
    && CaughtOf(s', t) == CaughtOf(s, t)
  }

  lemma IndifferentInterrupter(s: State, i: Interrupter, t: Fiber)
    requires InterrupterWellFormed(s, i)
    ensures Indifferent(s, CallInterrupter(s, i), t)
    ensures CallInterrupter(s, i).fibers.Keys == s.fibers.Keys
  {}

  lemma IndifferentData(s: State, f: Fiber, d: FiberData, t: Fiber)
    requires f in s.fibers && d.status == s.fibers[f].status
    ensures Indifferent(s, SetData(s, f, d), t)
  {}

  lemma IndifferentInterrupt(s: State, h: HandleId, t: Fiber)
    requires CanRun(s) && h in s.handles
    ensures Indifferent(s, DoInterrupt(s, h).0, t)
  {
    assert HandleWellFormed(s, h);
    if s.handles[h].fiber.Some? {
      var f := s.handles[h].fiber.value;
      assert DataWellFormed(s, s.fibers[f]);
      var s1 := SetData(s, f, s.fibers[f].(interrupted := true));
      IndifferentData(s, f, s1.fibers[f], t);
      var s2 := CallInterrupter(s1, s.fibers[f].interrupter);
      IndifferentInterrupter(s1, s.fibers[f].interrupter, t);
      IndifferentData(s2, f, s2.fibers[f].(interrupter := NoInterrupter), t);
    }
  }

  lemma IndifferentScheduling(s: State, t: Fiber)
    requires CanRun(s) && t < s.nextFiber
    ensures Indifferent(s, DoSpawn(s).0, t) && Indifferent(s, DoYield(s).0, t)
  {}

  lemma IndifferentCounters(s: State, t: Fiber)
    requires CanRun(s)
    ensures Indifferent(s, DoDisableInterruption(s).0, t) && Indifferent(s, DoRestoreInterruption(s).0, t)
    ensures Indifferent(s, DoForbidSuspend(s).0, t) && Indifferent(s, DoAllowSuspend(s).0, t)
  {}

  lemma IndifferentMutex(s: State, a: Action, t: Fiber)
    requires CanRun(s) && Enabled(s, a)
    requires a.NewMutex? || a.MutexLock? || a.MutexTryLock? || a.MutexUnlock?
    ensures Indifferent(s, Perform(s, a).0, t)
  {}

  lemma IndifferentFields(s: State, s': State, t: Fiber)
    requires s'.fibers == s.fibers && s'.handles == s.handles
    ensures Indifferent(s, s', t)
  {}

  lemma IndifferentRMutex(s: State, a: Action, t: Fiber)
    requires CanRun(s) && Enabled(s, a)
    requires a.NewRMutex? || a.RMutexLock? || a.RMutexTryLock? || a.RMutexUnlock?
    ensures Indifferent(s, Perform(s, a).0, t)
  {
    RMutexFrame(s, a);
    IndifferentFields(s, Perform(s, a).0, t);
  }

  lemma IndifferentCond(s: State, a: Action, t: Fiber)
    requires CanRun(s) && Enabled(s, a)
    requires a.NewCond? || a.CondWait? || a.NotifyOne? || a.NotifyAll?
    ensures Indifferent(s, Perform(s, a).0, t)
  {}

  lemma IndifferentFuture(s: State, a: Action, t: Fiber)
    requires CanRun(s) && Enabled(s, a)
    requires a.NewPromise? || a.SetValue? || a.SetError? || a.PromiseGc? || a.FutureGet?
    ensures Indifferent(s, Perform(s, a).0, t)
  {
    if a.FutureGet? {
      IndifferentGet(s, a.promise, t);
    } else {
      IndifferentFields(s, Perform(s, a).0, t);
    }
  }

  lemma IndifferentGet(s: State, p: PromiseId, t: Fiber)
    requires CanRun(s) && p in s.promises
    ensures Indifferent(s, DoFutureGet(s, p).0, t)
  {}

  lemma IndifferentStep(s: State, a: Action, t: Fiber)
    requires WellFormed(s) && Enabled(s, a) && t < s.nextFiber
    requires !a.Join? && !a.Detach? && !a.GcHandle? && !a.Finish?
    ensures Indifferent(s, Perform(s, a).0, t)
  {
    if a.RunNext? {
      assert ResumeWellFormed(s, s.strand[0]);
    } else if a.Interrupt? {
      IndifferentInterrupt(s, a.handle, t);
    } else if OnFibers(a) {
      IndifferentScheduling(s, t);
      IndifferentCounters(s, t);
    } else if a.NewMutex? || a.MutexLock? || a.MutexTryLock? || a.MutexUnlock? {
      IndifferentMutex(s, a, t);
    } else if a.NewRMutex? || a.RMutexLock? || a.RMutexTryLock? || a.RMutexUnlock? {
      IndifferentRMutex(s, a, t);
    } else if a.NewCond? || a.CondWait? || a.NotifyOne? || a.NotifyAll? {
      IndifferentCond(s, a, t);
    } else {
      IndifferentFuture(s, a, t);
    }
  }

  lemma JoinElsewhere(s: State, h: HandleId, t: Fiber)
    requires CanRun(s) && h in s.handles && HandleOk(s, h) && s.handles[h].fiber != Some(t)
    ensures PhaseStep(s, Join(h), t)
  {
    assert Step(s, Join(h)) == DoJoin(s, h);
    assert Indifferent(s, DoJoin(s, h).0, t);
  }

  lemma JoinPhase(s: State, h: HandleId, t: Fiber)
    requires CanRun(s) && h in s.handles && HandleOk(s, h) && OwnerOk(s, t)
    ensures PhaseStep(s, Join(h), t)
  {
    if s.handles[h].fiber != Some(t) {
      JoinElsewhere(s, h, t);
    } else {
      assert Step(s, Join(h)) == DoJoin(s, h);
    }
  }

  lemma DetachPhase(s: State, h: HandleId, t: Fiber)
    requires CanRun(s) && h in s.handles && HandleOk(s, h) && OwnerOk(s, t)
    ensures PhaseStep(s, Detach(h), t)
  {
    assert Step(s, Detach(h)) == DoDetach(s, h);
  }

  lemma GcPhase(s: State, h: HandleId, t: Fiber)
    requires CanRun(s) && h in s.handles && HandleOk(s, h) && OwnerOk(s, t)
    ensures PhaseStep(s, GcHandle(h), t)
  {
    assert Step(s, GcHandle(h)) == DoGcHandle(s, h);
  }

  /** What the joins invariant says about the running fiber. */
  ghost predicate JoinersOk(s: State) {
    CanRun(s) ==>
      var me := s.control.fiber;
      && Me(s).status.Running? && OwnerOk(s, me) && (me in s.handles ==> HandleOk(s, me))
      && (Me(s).joiner.Joined? ==> Me(s).joiner.fiber != me && Me(s).userHandle == Some(me))
  }

  lemma JoinsInOrder(s: State)
    requires Coherent(s)
    ensures WellFormed(s) && JoinersOk(s)
    ensures forall h {:trigger HandleOk(s, h)} :: h in s.handles ==> HandleOk(s, h)
    ensures forall t {:trigger OwnerOk(s, t)} :: OwnerOk(s, t)
  {
    var w :| Inv(s, w);
    InvWellFormed(s, w);
    if s.control.Active? {
      RunningPlace(s, w);
      assert OwnerOk(s, s.control.fiber);
      if Me(s).joiner.Joined? {
        assert HandleOk(s, s.control.fiber);
      }
    }
  }

  lemma FinishPhase(s: State, o: Outcome, t: Fiber)
    requires CanRun(s) && JoinersOk(s)
    ensures PhaseStep(s, Finish(o), t)
  {
    assert Step(s, Finish(o)) == DoFinish(s, o);
    if t != s.control.fiber {
      FinishOther(s, o, t);
    }
  }

  lemma FinishOther(s: State, o: Outcome, t: Fiber)
    requires CanRun(s) && t != s.control.fiber
    requires Me(s).userHandle == Some(s.control.fiber) || !Me(s).joiner.Joined?
    ensures Indifferent(s, DoFinish(s, o).0, t)
  {
    assert DataWellFormed(s, Me(s));
  }

  lemma IdlePhase(s: State, a: Action, t: Fiber)
    requires !Enabled(s, a)
    ensures PhaseStep(s, a, t)
  {
    assert Step(s, a) == (s, NotEnabled);
  }

  lemma OtherPhase(s: State, a: Action, t: Fiber)
    requires WellFormed(s) && t < s.nextFiber && Enabled(s, a)
    requires !a.Join? && !a.Detach? && !a.GcHandle? && !a.Finish?
    ensures PhaseStep(s, a, t)
  {
    IndifferentStep(s, a, t);
    IndifferentPhase(s, a, t);
  }

  lemma IndifferentPhase(s: State, a: Action, t: Fiber)
    requires Indifferent(s, Next(s, a), t) && !a.Join? && !a.Detach? && !a.GcHandle? && !a.Finish?
    ensures PhaseStep(s, a, t)
  {
    assert Ends(s, a, t) == [] && Fates(s, a, t) == [];
  }

  lemma StepPhase(s: State, a: Action, t: Fiber)
    requires Coherent(s) && t < s.nextFiber
    ensures PhaseStep(s, a, t)
  {
    JoinsInOrder(s);
    assert OwnerOk(s, t);
    if !Enabled(s, a) {
      IdlePhase(s, a, t);
    } else if a.Join? {
      JoinPhase(s, a.handle, t);
    } else if a.Detach? {
      DetachPhase(s, a.handle, t);
    } else if a.GcHandle? {
      GcPhase(s, a.handle, t);
    } else if a.Finish? {
      FinishPhase(s, a.outcome, t);
    } else {
      OtherPhase(s, a, t);
    }
  }

  lemma FiberCountGrows(s: State, a: Action)
    ensures s.nextFiber <= Next(s, a).nextFiber
  {
    if WellFormed(s) && Enabled(s, a) {
      if a.Interrupt? {
        InterruptCount(s, a.handle);
      } else {
        PerformCount(s, a);
      }
    }
  }

  lemma InterruptCount(s: State, h: HandleId)
    requires CanRun(s) && h in s.handles
    ensures DoInterrupt(s, h).0.nextFiber == s.nextFiber
  {}

  lemma PerformCount(s: State, a: Action)
    requires WellFormed(s) && Enabled(s, a) && !a.Interrupt?
    ensures s.nextFiber <= Perform(s, a).0.nextFiber
  {
    if a.MutexLock? || a.MutexTryLock? || a.MutexUnlock? || a.RMutexLock? || a.RMutexTryLock? || a.RMutexUnlock? {
      LockCount(s, a);
    } else if a.CondWait? || a.NotifyOne? || a.NotifyAll? || a.SetValue? || a.SetError? || a.PromiseGc? || a.FutureGet? {
      WaitCount(s, a);
    }
  }

  lemma LockCount(s: State, a: Action)
    requires CanRun(s) && Enabled(s, a)
    requires a.MutexLock? || a.MutexTryLock? || a.MutexUnlock? || a.RMutexLock? || a.RMutexTryLock? || a.RMutexUnlock?
    ensures s.nextFiber == Perform(s, a).0.nextFiber
  {
    if OnRMutex(a) {
      RMutexFrame(s, a);
    }
  }

  lemma WaitCount(s: State, a: Action)
    requires CanRun(s) && Enabled(s, a)
    requires a.CondWait? || a.NotifyOne? || a.NotifyAll? || a.SetValue? || a.SetError? || a.PromiseGc? || a.FutureGet?
    ensures s.nextFiber == Perform(s, a).0.nextFiber
  {}

  /**
    A fiber ends at most once. Its outcome is handed to exactly one join, unchanged, or given up,
    never both; until then the handle holds it. The handle notes whether it was an interruption when the
    outcome is handed over, and at no other time.
   */
  lemma {:induction false} OutcomeExactlyOnce(s: State, run: seq<Action>, t: Fiber)
    requires Coherent(s) && t < s.nextFiber
    ensures History(PhaseOf(s, t), PhaseOf(Exec(s, run), t), EndsIn(s, run, t), FatesIn(s, run, t),
                    CaughtOf(s, t), CaughtOf(Exec(s, run), t))
    decreases |run|
  {
    if run != [] {
      var s1 := Next(s, run[0]);
      CoherentStep(s, run[0]);
      StepPhase(s, run[0], t);
      FiberCountGrows(s, run[0]);
      OutcomeExactlyOnce(s1, run[1..], t);
      HistoryChain(PhaseOf(s, t), PhaseOf(s1, t), PhaseOf(Exec(s, run), t), Ends(s, run[0], t), Fates(s, run[0], t),
                   EndsIn(s1, run[1..], t), FatesIn(s1, run[1..], t),
                   CaughtOf(s, t), CaughtOf(s1, t), CaughtOf(Exec(s, run), t));
    }
  }

  /** A spawned fiber is live from then on, under a name of its own, with nothing noted on its handle. */
  lemma SpawnStartsLife(s: State)
    requires Coherent(s) && s.control.Active?
    ensures var f, s' := s.nextFiber, Next(s, Spawn);
            && f !in s.fibers && f < s'.nextFiber && PhaseOf(s', f) == Live && CaughtOf(s', f) == None
            && f in s'.handles && s'.handles[f].fiber == Some(f) && !s'.handles[f].joinInProgress
  {
    CoherentStep(s, Spawn);
    CoherentWellFormed(s);
    assert Step(s, Spawn) == DoSpawn(s);
    assert forall f :: f in s.fibers ==> f < s.nextFiber;
  }

  /** A join of a finished fiber, perhaps retried after an interruption, gets the outcome at once. */
  lemma RetriedJoin(s: State, t: Fiber)
    requires Coherent(s) && s.control.Active? && PhaseOf(s, t).Held?
    requires s.control.fiber in s.fibers && FreeToSuspend(s.fibers[s.control.fiber])
    ensures Step(s, Join(t)).1.JoinReply? && Tells(Step(s, Join(t)).1.args, PhaseOf(s, t).outcome)
    ensures PhaseOf(Next(s, Join(t)), t) == Gone
    ensures CaughtOf(Next(s, Join(t)), t) == Some(PhaseOf(s, t).outcome == Raised(InterruptedError))
  {
    CoherentStep(s, Join(t));
    var w :| Inv(s, w);
    assert HandleOk(s, t);
    RunningPlace(s, w);
  }
}
