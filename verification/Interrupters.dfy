/** A stored interrupter always names the wait its fiber went into last. */
module Interrupters {
  import opened Wrappers
  import opened Runtime
  import opened Placement
  import opened Invariant
  import opened Runs
  import opened Traces

  /** Where a call that suspends its caller leaves it. The end of a fiber is not a wait. */
  ghost function WaitsAt(s: State, a: Action): Option<Place> {
    match a
    case Yield => Some(Posted)
    case Join(h) => if h in s.handles && s.handles[h].fiber.Some? then Some(InJoin(s.handles[h].fiber.value)) else None
    case _ => SleepsOn(a)
  }

  /** The wait that `f` goes into in this step. */
  ghost function WaitOf(s: State, a: Action, f: Fiber): Option<Place> {
    if s.control.Active? && s.control.fiber == f && Step(s, a).1 == Suspended then WaitsAt(s, a) else None
  }

  /** The last wait that `f` went into, if there was one; `last` was the last before the run. */
  ghost function LastWait(s: State, run: seq<Action>, f: Fiber, last: Option<Place>): Option<Place>
    decreases |run|
  {
    if run == [] then last
    else
      var now := WaitOf(s, run[0], f);
      LastWait(Next(s, run[0]), run[1..], f, if now.Some? then now else last)
  }

  /** An interrupter stored for `f` would end the wait at `last`, and nobody else's. */
  ghost predicate Names(i: Interrupter, f: Fiber, last: Option<Place>) {
    match i
    case NoInterrupter => true
    case CondInterrupter(c, g) => g == f && last == Some(InCond(c))
    case FutureInterrupter(p, g) => g == f && last == Some(InFuture(p))
    case JoinInterrupter(h, g, t) => g == f && h == t && last == Some(InJoin(t))
  }

  function SlotOf(s: State, f: Fiber): Interrupter {
    if f in s.fibers then s.fibers[f].interrupter else NoInterrupter
  }

  /** The slot of `f` is as it was, or empty. */
  ghost predicate Leaves(s: State, s': State, f: Fiber) {
    SlotOf(s', f) == SlotOf(s, f) || SlotOf(s', f).NoInterrupter?
  }

  /** A step leaves the slot of `f` alone, or clears it, or `f` suspends and the slot names that wait. */
  ghost predicate SlotMoves(s: State, a: Action, f: Fiber) {
    var now := WaitOf(s, a, f);
    if now.Some? then Names(SlotOf(Next(s, a), f), f, now) else Leaves(s, Next(s, a), f)
  }

  ghost predicate RunnerClear(s: State) {
    CanRun(s) && SlotOf(s, s.control.fiber).NoInterrupter?
  }

  lemma RunnerIsClear(s: State)
    requires Coherent(s) && s.control.Active?
    ensures RunnerClear(s)
  {
    var w :| Inv(s, w);
    InvWellFormed(s, w);
    RunningPlace(s, w);
    assert InterruptOk(s, w, s.control.fiber);
  }

  lemma SchedulingLeaves(s: State, f: Fiber)
    requires CanRun(s)
    ensures Leaves(s, DoSpawn(s).0, f) && Leaves(s, DoYield(s).0, f)
  {}

  lemma ReleaseLeaves(s: State, h: HandleId, f: Fiber)
    requires CanRun(s) && h in s.handles
    ensures Leaves(s, DoDetach(s, h).0, f) && Leaves(s, DoGcHandle(s, h).0, f)
  {
    assert HandleWellFormed(s, h);
  }

  lemma FinishLeaves(s: State, o: Outcome, f: Fiber)
    requires CanRun(s)
    ensures Leaves(s, DoFinish(s, o).0, f)
  {
    assert DataWellFormed(s, Me(s));
  }

  lemma CountersLeave(s: State, f: Fiber)
    requires CanRun(s)
    ensures Leaves(s, DoDisableInterruption(s).0, f) && Leaves(s, DoRestoreInterruption(s).0, f)
    ensures Leaves(s, DoForbidSuspend(s).0, f) && Leaves(s, DoAllowSuspend(s).0, f)
  {}

  lemma CallInterrupterLeaves(s: State, i: Interrupter, f: Fiber)
    requires InterrupterWellFormed(s, i)
    ensures SlotOf(CallInterrupter(s, i), f) == SlotOf(s, f)
  {}

  lemma InterruptLeaves(s: State, h: HandleId, f: Fiber)
    requires CanRun(s) && h in s.handles
    ensures Leaves(s, DoInterrupt(s, h).0, f)
  {
    assert HandleWellFormed(s, h);
    if s.handles[h].fiber.Some? {
      var t := s.handles[h].fiber.value;
      assert DataWellFormed(s, s.fibers[t]);
      CallInterrupterLeaves(SetData(s, t, s.fibers[t].(interrupted := true)), s.fibers[t].interrupter, f);
    }
  }

  lemma RunNextLeaves(s: State, f: Fiber)
    requires WellFormed(s) && s.strand != []
    ensures Leaves(s, DoRunNext(s).0, f)
  {
    assert ResumeWellFormed(s, s.strand[0]);
  }

  lemma FiberActionLeaves(s: State, a: Action, f: Fiber)
    requires CanRun(s) && Enabled(s, a) && OnFibers(a) && !a.Join?
    ensures Leaves(s, Perform(s, a).0, f)
  {
    match a
    case Spawn => SchedulingLeaves(s, f);
    case Yield => SchedulingLeaves(s, f);
    case Detach(h) => ReleaseLeaves(s, h, f);
    case GcHandle(h) => ReleaseLeaves(s, h, f);
    case Finish(o) => FinishLeaves(s, o, f);
    case _ => CountersLeave(s, f);
  }

  lemma LockActionLeaves(s: State, a: Action)
    requires CanRun(s) && Enabled(s, a) && !OnFibers(a)
    requires !a.Interrupt? && !a.RunNext? && !a.CondWait? && !a.FutureGet?
    ensures Perform(s, a).0.fibers == s.fibers
  {
    if OnRMutex(a) {
      RMutexFrame(s, a);
    }
  }

  /** What is left where nobody suspends on an interruptible wait. */
  lemma OtherLeaves(s: State, a: Action, f: Fiber)
    requires WellFormed(s) && Enabled(s, a) && !a.Join? && !a.CondWait? && !a.FutureGet?
    ensures Leaves(s, Next(s, a), f)
  {
    assert Step(s, a) == Perform(s, a);
    if a.RunNext? {
      RunNextLeaves(s, f);
    } else if a.Interrupt? {
      InterruptLeaves(s, a.handle, f);
    } else if OnFibers(a) {
      FiberActionLeaves(s, a, f);
    } else {
      LockActionLeaves(s, a);
    }
  }

  lemma OtherMoves(s: State, a: Action, f: Fiber)
    requires WellFormed(s) && Enabled(s, a) && !a.Join? && !a.CondWait? && !a.FutureGet?
    requires s.control.Active? ==> RunnerClear(s)
    ensures SlotMoves(s, a, f)
  {
    OtherLeaves(s, a, f);
  }

  lemma JoinMoves(s: State, h: HandleId, f: Fiber)
    requires RunnerClear(s) && h in s.handles && HandleOk(s, h)
    ensures SlotMoves(s, Join(h), f)
  {
    assert Step(s, Join(h)) == DoJoin(s, h);
  }

  lemma CondWaitMoves(s: State, c: CondId, m: MutexId, f: Fiber)
    requires RunnerClear(s) && c in s.conds && m in s.mutexes
    ensures SlotMoves(s, CondWait(c, m), f)
  {
    assert Step(s, CondWait(c, m)) == DoCondWait(s, c, m);
  }

  lemma FutureGetMoves(s: State, p: PromiseId, f: Fiber)
    requires RunnerClear(s) && p in s.promises
    ensures SlotMoves(s, FutureGet(p), f)
  {
    assert Step(s, FutureGet(p)) == DoFutureGet(s, p);
  }

  lemma SleepMoves(s: State, a: Action, f: Fiber)
    requires RunnerClear(s) && Enabled(s, a) && (a.Join? || a.CondWait? || a.FutureGet?)
    requires a.Join? ==> HandleOk(s, a.handle)
    ensures SlotMoves(s, a, f)
  {
    match a
    case Join(h) => JoinMoves(s, h, f);
    case CondWait(c, m) => CondWaitMoves(s, c, m, f);
    case FutureGet(p) => FutureGetMoves(s, p, f);
  }

  lemma IdleMoves(s: State, a: Action, f: Fiber)
    requires !Enabled(s, a)
    ensures SlotMoves(s, a, f)
  {
    assert Step(s, a) == (s, NotEnabled);
  }

  lemma SlotStep(s: State, a: Action, f: Fiber)
    requires Coherent(s)
    ensures SlotMoves(s, a, f)
  {
    CoherentWellFormed(s);
    if s.control.Active? {
      RunnerIsClear(s);
    }
    if !Enabled(s, a) {
      IdleMoves(s, a, f);
    } else if a.Join? || a.CondWait? || a.FutureGet? {
      if a.Join? {
        CoherentHandle(s, a.handle);
      }
      SleepMoves(s, a, f);
    } else {
      OtherMoves(s, a, f);
    }
  }

  lemma CoherentHandle(s: State, h: HandleId)
    requires Coherent(s) && h in s.handles
    ensures HandleOk(s, h)
  {}

  lemma {:induction false} SlotOverRun(s: State, run: seq<Action>, f: Fiber, last: Option<Place>)
    requires Coherent(s) && Names(SlotOf(s, f), f, last)
    ensures Names(SlotOf(Exec(s, run), f), f, LastWait(s, run, f, last))
    decreases |run|
  {
    if run != [] {
      CoherentStep(s, run[0]);
      SlotStep(s, run[0], f);
      var now := WaitOf(s, run[0], f);
      SlotOverRun(Next(s, run[0]), run[1..], f, if now.Some? then now else last);
    }
  }

  /**
    In every reachable state no interruption is missed, and an interrupter stored for a fiber would end the wait
    that the fiber went into last: the one it is in, or one that a posted resume has ended.
   */
  lemma InterruptCompleteness(run: seq<Action>)
    ensures InterruptionsComplete(Exec(Init(), run))
    ensures forall f :: Names(SlotOf(Exec(Init(), run), f), f, LastWait(Init(), run, f, None))
  {
    ReachableCoherent(run);
    var w :| Inv(Exec(Init(), run), w);
    InterruptionsInInv(Exec(Init(), run), w);
    InitCoherent();
    forall f
      ensures Names(SlotOf(Exec(Init(), run), f), f, LastWait(Init(), run, f, None))
    {
      SlotOverRun(Init(), run, f, None);
    }
  }
}
