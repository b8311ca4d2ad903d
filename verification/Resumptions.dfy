/**
  What a resumed fiber finds, told from the call that resumed it: every closure
  that runs was left by one action of the run, with that action's arguments.
 */
module Resumptions {
  import opened Wrappers
  import opened Sequences
  import opened Runtime
  import opened Placement
  import opened Invariant
  import opened Runs
  import opened Traces

  /** The action leaves this closure on the strand. */
  ghost predicate Explains(s: State, a: Action, r: Resume) {
    match a
    case Spawn => r == Resume(s.nextFiber, NoArgs, true)
    case Yield => s.control.Active? && r == Resume(s.control.fiber, NoArgs, true)
    case MutexUnlock(m) => r.fiber in Queue(s, InMutex(m)) && r.args.NoArgs? && r.skipClearInterrupter
    case CondWait(_, m) => r.fiber in Queue(s, InMutex(m)) && r.args.NoArgs? && r.skipClearInterrupter
    case RMutexUnlock(m) => r.fiber in Queue(s, InRMutex(m)) && r.args.NoArgs? && r.skipClearInterrupter
    case NotifyOne(c) => r.fiber in Queue(s, InCond(c)) && r.args.NoArgs? && !r.skipClearInterrupter
    case NotifyAll(c) => r.fiber in Queue(s, InCond(c)) && r.args.NoArgs? && !r.skipClearInterrupter
    case SetValue(p, v) => r.fiber in Queue(s, InFuture(p)) && r.args == Ready(v) && !r.skipClearInterrupter
    case SetError(p, v) => r.fiber in Queue(s, InFuture(p)) && r.args == Failed(v) && !r.skipClearInterrupter
    case PromiseGc(p) => r.fiber in Queue(s, InFuture(p)) && r.args == Failure(BrokenPromise) && !r.skipClearInterrupter
    case Interrupt(h) =>
      && Wakeable(s, r.fiber) && h in s.handles && s.handles[h].fiber == Some(r.fiber) && !r.skipClearInterrupter
      && r.args == if Joining(s, r.fiber) then JoinInterrupted else Failure(Interrupted)
    case _ => false
  }

  /** The strand grows by closures that the action explains. */
  ghost predicate Grows(s: State, a: Action, s': State) {
    s.strand <= s'.strand && forall i :: |s.strand| <= i < |s'.strand| ==> Explains(s, a, s'.strand[i])
  }

  lemma SchedulingGrows(s: State)
    requires CanRun(s)
    ensures Grows(s, Spawn, DoSpawn(s).0) && |DoSpawn(s).0.strand| == |s.strand| + 1
    ensures Grows(s, Yield, DoYield(s).0)
    ensures |DoYield(s).0.strand| == |s.strand| + if DoYield(s).1 == Suspended then 1 else 0
  {}

  lemma HandOnGrows(s: State, m: MutexId)
    requires CanRun(s) && m in s.mutexes
    ensures Grows(s, MutexUnlock(m), DoMutexUnlock(s, m).0)
  {}

  lemma CondWaitGrows(s: State, c: CondId, m: MutexId)
    requires CanRun(s) && c in s.conds && m in s.mutexes
    ensures Grows(s, CondWait(c, m), DoCondWait(s, c, m).0)
  {}

  lemma RMutexGrows(s: State, m: RMutexId)
    requires CanRun(s) && m in s.rmutexes
    ensures Grows(s, RMutexUnlock(m), DoRMutexUnlock(s, m).0)
  {}

  lemma NotifyGrows(s: State, c: CondId)
    requires CanRun(s) && c in s.conds
    ensures Grows(s, NotifyOne(c), DoNotifyOne(s, c).0) && Grows(s, NotifyAll(c), DoNotifyAll(s, c).0)
  {}

  lemma SetGrows(s: State, p: PromiseId, v: Value)
    requires CanRun(s) && p in s.promises
    ensures Grows(s, SetValue(p, v), DoSetValue(s, p, v).0)
  {}

  lemma SetErrorGrows(s: State, p: PromiseId, v: Value)
    requires CanRun(s) && p in s.promises
    ensures Grows(s, SetError(p, v), DoSetError(s, p, v).0)
  {}

  lemma BreakGrows(s: State, p: PromiseId)
    requires CanRun(s) && p in s.promises
    ensures Grows(s, PromiseGc(p), DoPromiseGc(s, p).0)
  {}

  lemma InterruptGrows(s: State, h: HandleId)
    requires Coherent(s) && Enabled(s, Interrupt(h))
    ensures Grows(s, Interrupt(h), Next(s, Interrupt(h)))
  {
    if s.handles[h].fiber.Some? {
      InterruptPostsOnce(s, h);
    } else {
      CoherentWellFormed(s);
      assert Step(s, Interrupt(h)) == DoInterrupt(s, h);
    }
  }

  lemma JoinPostsNothing(s: State, a: Action)
    requires CanRun(s) && Enabled(s, a) && (a.Join? || a.Detach? || a.GcHandle? || a.Finish?)
    ensures Perform(s, a).0.strand == s.strand
  {
    match a
    case Join(h) => assert DoJoin(s, h).0.strand == s.strand;
    case Detach(h) => assert DoDetach(s, h).0.strand == s.strand;
    case GcHandle(h) => assert DoGcHandle(s, h).0.strand == s.strand;
    case Finish(o) => assert DoFinish(s, o).0.strand == s.strand;
  }

  lemma LockPostsNothing(s: State, a: Action)
    requires CanRun(s) && Enabled(s, a)
    requires a.MutexLock? || a.MutexTryLock? || a.RMutexLock? || a.RMutexTryLock? || a.FutureGet?
    ensures Perform(s, a).0.strand == s.strand
  {}

  lemma RestPostsNothing(s: State, a: Action)
    requires CanRun(s) && Enabled(s, a)
    requires a.NewMutex? || a.NewRMutex? || a.NewCond? || a.NewPromise?
          || a.DisableInterruption? || a.RestoreInterruption? || a.ForbidSuspend? || a.AllowSuspend?
    ensures Perform(s, a).0.strand == s.strand
  {}

  lemma PostsNothing(s: State, a: Action)
    requires CanRun(s) && Enabled(s, a) && !a.Spawn? && !a.Yield? && !a.Interrupt? && SilentOnObjects(a)
    ensures Perform(s, a).0.strand == s.strand
  {
    if a.Join? || a.Detach? || a.GcHandle? || a.Finish? {
      JoinPostsNothing(s, a);
    } else if a.MutexLock? || a.MutexTryLock? || a.RMutexLock? || a.RMutexTryLock? || a.FutureGet? {
      LockPostsNothing(s, a);
    } else {
      RestPostsNothing(s, a);
    }
  }

  /** Calls that wake nobody who waits on an object. */
  predicate SilentOnObjects(a: Action) {
    && !a.MutexUnlock? && !a.CondWait? && !a.RMutexUnlock? && !a.NotifyOne? && !a.NotifyAll?
    && !a.SetValue? && !a.SetError? && !a.PromiseGc?
  }

  lemma LockGrows(s: State, a: Action)
    requires CanRun(s) && Enabled(s, a) && (a.MutexUnlock? || a.CondWait? || a.RMutexUnlock?)
    ensures Grows(s, a, Perform(s, a).0)
  {
    match a
    case MutexUnlock(m) => HandOnGrows(s, m);
    case CondWait(c, m) => CondWaitGrows(s, c, m);
    case RMutexUnlock(m) => RMutexGrows(s, m);
  }

  lemma WakeGrows(s: State, a: Action)
    requires CanRun(s) && Enabled(s, a)
    requires a.NotifyOne? || a.NotifyAll? || a.SetValue? || a.SetError? || a.PromiseGc?
    ensures Grows(s, a, Perform(s, a).0)
  {
    match a
    case NotifyOne(c) => NotifyGrows(s, c);
    case NotifyAll(c) => NotifyGrows(s, c);
    case SetValue(p, v) => SetGrows(s, p, v);
    case SetError(p, v) => SetErrorGrows(s, p, v);
    case PromiseGc(p) => BreakGrows(s, p);
  }

  lemma CallGrows(s: State, a: Action)
    requires CanRun(s) && Enabled(s, a) && !a.Interrupt?
    ensures Grows(s, a, Perform(s, a).0)
  {
    if a.MutexUnlock? || a.CondWait? || a.RMutexUnlock? {
      LockGrows(s, a);
    } else if a.NotifyOne? || a.NotifyAll? || a.SetValue? || a.SetError? || a.PromiseGc? {
      WakeGrows(s, a);
    } else if a.Spawn? || a.Yield? {
      SchedulingGrows(s);
    } else {
      PostsNothing(s, a);
    }
  }

  /** What a step posts, it explains. */
  lemma PostsExplained(s: State, a: Action)
    requires Coherent(s)
    ensures forall r :: r in Posts(s, a) ==> Explains(s, a, r)
  {
    CoherentWellFormed(s);
    if Enabled(s, a) && !a.RunNext? {
      if a.Interrupt? {
        InterruptGrows(s, a.handle);
      } else {
        CallGrows(s, a);
      }
      assert Grows(s, a, Next(s, a));
    }
  }

  /** A new fiber is resumed once, and so is one that yields. */
  lemma SchedulesOnce(s: State, a: Action)
    requires Coherent(s) && Enabled(s, a) && (a.Spawn? || (a.Yield? && Step(s, a).1 == Suspended))
    ensures |Posts(s, a)| == 1
  {
    CoherentWellFormed(s);
    SchedulingGrows(s);
    assert Step(s, a) == Perform(s, a);
  }

  // ---------------------------------------------------------------- over a run

  ghost predicate Explained(s: State, run: seq<Action>, r: Resume) {
    exists j: nat :: j < |run| && Explains(Exec(s, run[..j]), run[j], r)
  }

  lemma ExplainedNow(s: State, run: seq<Action>, r: Resume)
    requires run != [] && Explains(s, run[0], r)
    ensures Explained(s, run, r)
  {
    assert Exec(s, run[..0]) == s;
  }

  lemma ExplainedLater(s: State, run: seq<Action>, r: Resume)
    requires run != [] && Explained(Next(s, run[0]), run[1..], r)
    ensures Explained(s, run, r)
  {
    var j: nat :| j < |run[1..]| && Explains(Exec(Next(s, run[0]), run[1..][..j]), run[1..][j], r);
    assert run[..j + 1][0] == run[0] && run[..j + 1][1..] == run[1..][..j];
    assert Exec(s, run[..j + 1]) == Exec(Next(s, run[0]), run[1..][..j]);
    assert run[j + 1] == run[1..][j];
  }

  lemma {:induction false} PostedExplained(s: State, run: seq<Action>, r: Resume)
    requires Coherent(s) && r in PostedIn(s, run)
    ensures Explained(s, run, r)
    decreases |run|
  {
    CoherentStep(s, run[0]);
    PostsExplained(s, run[0]);
    if r in Posts(s, run[0]) {
      ExplainedNow(s, run, r);
    } else {
      PostedExplained(Next(s, run[0]), run[1..], r);
      ExplainedLater(s, run, r);
    }
  }

  /**
    Over any run, a closure that gave a fiber control, or waits to do so, was left by an action of the run: it
    names a fiber that was where the action wakes fibers, and brings what that action says.
   */
  lemma EveryResumeExplained(run: seq<Action>)
    ensures forall r :: r in RanIn(Init(), run) || r in Exec(Init(), run).strand ==> Explained(Init(), run, r)
  {
    InitCoherent();
    StrandFifo(Init(), run);
    forall r | r in RanIn(Init(), run) || r in Exec(Init(), run).strand
      ensures Explained(Init(), run, r)
    {
      assert Init().strand == [];
      assert r in RanIn(Init(), run) + Exec(Init(), run).strand;
      assert r in PostedIn(Init(), run);
      PostedExplained(Init(), run, r);
    }
  }
}
