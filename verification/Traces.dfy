/**
  What a run of the fiber runtime does, observed from outside: which fibers went
  to sleep on an object, which resume closures were posted, and which were run.
  The theorems relate these observations to the queues.
 */
module Traces {
  import opened Wrappers
  import opened Sequences
  import opened Runtime
  import opened Placement
  import opened Invariant
  import opened Preservation
  import opened Runs

  /** A fiber that may suspend: it has not forbidden it, and was not interrupted, or does not mind. */
  ghost predicate FreeToSuspend(d: FiberData) {
    d.suspensionDisallowed == 0 && (d.interrupted ==> d.interruptionDisabled > 0)
  }

  // ---------------------------------------------------------------- the strand

  /** The closures a step posts. */
  ghost function Posts(s: State, a: Action): seq<Resume> {
    var t := Next(s, a).strand;
    if !a.RunNext? && |s.strand| <= |t| then t[|s.strand|..] else []
  }

  /** The closure a step runs: the fiber gets control and finds the closure's arguments. */
  ghost function Ran(s: State, a: Action): seq<Resume> {
    if a.RunNext? && Enabled(s, a) && s.strand != [] && Next(s, a).control == Active(s.strand[0].fiber, s.strand[0].args)
    then [s.strand[0]] else []
  }

  ghost function PostedIn(s: State, run: seq<Action>): seq<Resume>
    decreases |run|
  {
    if run == [] then [] else Posts(s, run[0]) + PostedIn(Next(s, run[0]), run[1..])
  }

  ghost function RanIn(s: State, run: seq<Action>): seq<Resume>
    decreases |run|
  {
    if run == [] then [] else Ran(s, run[0]) + RanIn(Next(s, run[0]), run[1..])
  }

  /** The step touches no wait queue, and at most posts. */
  ghost predicate Quiet(s: State, s': State) {
    && s'.mutexes == s.mutexes && s'.rmutexes == s.rmutexes
    && s'.conds == s.conds && s'.promises == s.promises
    && s.strand <= s'.strand
  }

  lemma QuietScheduling(s: State)
    requires CanRun(s)
    ensures Quiet(s, DoSpawn(s).0) && Quiet(s, DoYield(s).0)
  {}

  lemma QuietCounters(s: State)
    requires CanRun(s)
    ensures Quiet(s, DoDisableInterruption(s).0) && Quiet(s, DoRestoreInterruption(s).0)
    ensures Quiet(s, DoForbidSuspend(s).0) && Quiet(s, DoAllowSuspend(s).0)
  {}

  lemma QuietJoin(s: State, h: HandleId)
    requires CanRun(s) && h in s.handles
    ensures Quiet(s, DoJoin(s, h).0)
  {}

  lemma QuietRelease(s: State, h: HandleId)
    requires CanRun(s) && h in s.handles
    ensures Quiet(s, DoDetach(s, h).0) && Quiet(s, DoGcHandle(s, h).0)
  {}

  lemma QuietFinish(s: State, o: Outcome)
    requires CanRun(s)
    ensures Quiet(s, DoFinish(s, o).0)
  {}

  lemma InterrupterStrand(s: State, i: Interrupter)
    requires InterrupterWellFormed(s, i)
    ensures s.strand <= CallInterrupter(s, i).strand
    ensures |CallInterrupter(s, i).strand| <= |s.strand| + 1
  {}

  lemma InterruptStrand(s: State, h: HandleId)
    requires CanRun(s) && h in s.handles
    ensures s.strand <= DoInterrupt(s, h).0.strand
    ensures |DoInterrupt(s, h).0.strand| <= |s.strand| + 1
  {
    assert HandleWellFormed(s, h);
    if s.handles[h].fiber.Some? {
      var f := s.handles[h].fiber.value;
      assert DataWellFormed(s, s.fibers[f]);
      InterrupterStrand(SetData(s, f, s.fibers[f].(interrupted := true)), s.fibers[f].interrupter);
    }
  }

  predicate OnFibers(a: Action) {
    || a.Spawn? || a.Yield? || a.Join? || a.Detach? || a.GcHandle? || a.Finish?
    || a.DisableInterruption? || a.RestoreInterruption? || a.ForbidSuspend? || a.AllowSuspend?
  }

  lemma QuietStep(s: State, a: Action)
    requires CanRun(s) && Enabled(s, a) && OnFibers(a)
    ensures Quiet(s, Perform(s, a).0)
  {
    match a
    case Join(h) => QuietJoin(s, h);
    case Detach(h) => QuietRelease(s, h);
    case GcHandle(h) => QuietRelease(s, h);
    case Finish(o) => QuietFinish(s, o);
    case Spawn => QuietScheduling(s);
    case Yield => QuietScheduling(s);
    case _ => QuietCounters(s);
  }

  /** Nothing but the queue and the owner of `m` changes, and who runs, and what is posted. */
  ghost predicate OnlyRMutex(s: State, s': State, m: RMutexId) {
    && s' == s.(control := s'.control, strand := s'.strand, rmutexes := s'.rmutexes)
    && s.strand <= s'.strand
    && forall n :: n in s.rmutexes && n != m ==> n in s'.rmutexes && s'.rmutexes[n] == s.rmutexes[n]
  }

  lemma RMutexLockFrame(s: State, m: RMutexId)
    requires CanRun(s) && m in s.rmutexes
    ensures OnlyRMutex(s, DoRMutexLock(s, m).0, m)
  {}

  lemma RMutexTryLockFrame(s: State, m: RMutexId)
    requires CanRun(s) && m in s.rmutexes
    ensures OnlyRMutex(s, DoRMutexTryLock(s, m).0, m)
  {}

  lemma RMutexUnlockFrame(s: State, m: RMutexId)
    requires CanRun(s) && m in s.rmutexes
    ensures OnlyRMutex(s, DoRMutexUnlock(s, m).0, m)
  {}

  predicate OnRMutex(a: Action) {
    a.NewRMutex? || a.RMutexLock? || a.RMutexTryLock? || a.RMutexUnlock?
  }

  /** What calls on recursive mutexes leave alone. */
  lemma RMutexFrame(s: State, a: Action)
    requires CanRun(s) && Enabled(s, a) && OnRMutex(a)
    ensures OnlyRMutex(s, Perform(s, a).0, a.rmutex)
  {
    match a
    case RMutexLock(m) => RMutexLockFrame(s, m);
    case RMutexTryLock(m) => RMutexTryLockFrame(s, m);
    case RMutexUnlock(m) => RMutexUnlockFrame(s, m);
    case NewRMutex(m) =>
  }

  lemma StrandGrows(s: State, a: Action)
    requires CanRun(s) && Enabled(s, a) && !a.RunNext?
    ensures s.strand <= Perform(s, a).0.strand
  {
    if OnFibers(a) {
      QuietStep(s, a);
    } else if a.Interrupt? {
      InterruptStrand(s, a.handle);
    } else if OnRMutex(a) {
      RMutexFrame(s, a);
    }
  }

  lemma StrandPops(s: State)
    requires WellFormed(s) && s.control.Idle? && s.strand != []
    ensures Ran(s, RunNext) == [s.strand[0]] && Next(s, RunNext).strand == s.strand[1..]
  {}

  lemma StrandKeeps(s: State, t: seq<Resume>)
    requires s.strand <= t
    ensures s.strand + t[|s.strand|..] == t
  {}

  lemma StrandStep(s: State, a: Action)
    requires Coherent(s)
    ensures s.strand + Posts(s, a) == Ran(s, a) + Next(s, a).strand
  {
    CoherentStep(s, a);
    if !Enabled(s, a) {
      assert Next(s, a) == s;
    } else if a.RunNext? {
      StrandPops(s);
    } else {
      StrandGrows(s, a);
      StrandKeeps(s, Next(s, a).strand);
    }
  }

  /** Every posted closure runs exactly once, in the order of posting, unless it is still queued. */
  lemma {:induction false} StrandFifo(s: State, run: seq<Action>)
    requires Coherent(s)
    ensures s.strand + PostedIn(s, run) == RanIn(s, run) + Exec(s, run).strand
    decreases |run|
  {
    if run != [] {
      var s1 := Next(s, run[0]);
      CoherentStep(s, run[0]);
      StrandStep(s, run[0]);
      StrandFifo(s1, run[1..]);
      Chain(s.strand, Posts(s, run[0]), Ran(s, run[0]), s1.strand,
            PostedIn(s1, run[1..]), RanIn(s1, run[1..]), Exec(s1, run[1..]).strand);
    }
  }

  // ---------------------------------------------------------------- wait queues

  ghost predicate IsWaitQueue(s: State, p: Place) {
    match p
    case InMutex(m) => m in s.mutexes
    case InRMutex(m) => m in s.rmutexes
    case InCond(c) => c in s.conds
    case InFuture(q) => q in s.promises
    case _ => false
  }

  /** Where a call that suspends parks its caller. */
  function SleepsOn(a: Action): Option<Place> {
    match a
    case MutexLock(m) => Some(InMutex(m))
    case RMutexLock(m) => Some(InRMutex(m))
    case CondWait(c, _) => Some(InCond(c))
    case FutureGet(p) => Some(InFuture(p))
    case _ => None
  }

  /** Calls that wake sleepers of `p` in turn. */
  predicate Wakes(a: Action, p: Place) {
    match a
    case MutexUnlock(m) => p == InMutex(m)
    case CondWait(_, m) => p == InMutex(m)
    case RMutexUnlock(m) => p == InRMutex(m)
    case NotifyOne(c) => p == InCond(c)
    case NotifyAll(c) => p == InCond(c)
    case SetValue(q, _) => p == InFuture(q)
    case SetError(q, _) => p == InFuture(q)
    case PromiseGc(q) => p == InFuture(q)
    case _ => false
  }

  ghost function Arrived(s: State, a: Action, p: Place): seq<Fiber> {
    if Step(s, a).1 == Suspended && SleepsOn(a) == Some(p) && s.control.Active? then [s.control.fiber] else []
  }

  ghost function Woken(s: State, a: Action, p: Place): seq<Fiber> {
    if Wakes(a, p) then Targets(Posts(s, a)) else []
  }

  ghost function Evicted(s: State, a: Action, p: Place): seq<Fiber> {
    var posts := Posts(s, a);
    if a.Interrupt? && posts != [] && posts[0].fiber in Queue(s, p) then [posts[0].fiber] else []
  }

  ghost function ArrivedIn(s: State, run: seq<Action>, p: Place): seq<Fiber>
    decreases |run|
  {
    if run == [] then [] else Arrived(s, run[0], p) + ArrivedIn(Next(s, run[0]), run[1..], p)
  }

  ghost function WokenIn(s: State, run: seq<Action>, p: Place): seq<Fiber>
    decreases |run|
  {
    if run == [] then [] else Woken(s, run[0], p) + WokenIn(Next(s, run[0]), run[1..], p)
  }

  ghost function EvictedIn(s: State, run: seq<Action>, p: Place): seq<Fiber>
    decreases |run|
  {
    if run == [] then [] else Evicted(s, run[0], p) + EvictedIn(Next(s, run[0]), run[1..], p)
  }

  /** A step other than an interruption: the queue loses its front and gains at its back. */
  ghost predicate QueueAdvances(s: State, a: Action, p: Place) {
    Queue(s, p) + Arrived(s, a, p) == Woken(s, a, p) + Queue(Next(s, a), p) && Evicted(s, a, p) == []
  }

  /** An interruption: one fiber leaves, wherever it stands. */
  ghost predicate QueueEvicts(s: State, a: Action, p: Place) {
    && Arrived(s, a, p) == [] && Woken(s, a, p) == []
    && |Evicted(s, a, p)| == 1 && Evicted(s, a, p)[0] in Queue(s, p)
    && Queue(Next(s, a), p) == Erase(Queue(s, p), Evicted(s, a, p)[0])
  }

  /** The same for a step given by its outcome. */
  ghost predicate Advance(s: State, s': State, p: Place, arrived: seq<Fiber>, wakes: bool) {
    && s.strand <= s'.strand && IsWaitQueue(s', p)
    && Queue(s, p) + arrived == (if wakes then Targets(s'.strand[|s.strand|..]) else []) + Queue(s', p)
  }

  function Sleeper(s: State, r: Reply, here: bool): seq<Fiber> {
    if here && r == Suspended && s.control.Active? then [s.control.fiber] else []
  }

  lemma QuietAdvances(s: State, s': State, p: Place)
    requires IsWaitQueue(s, p) && Quiet(s, s')
    ensures Advance(s, s', p, [], false)
  {}

  /** A new object leaves the existing queues alone. */
  lemma NewAdvances(s: State, a: Action, p: Place)
    requires CanRun(s) && Enabled(s, a) && IsWaitQueue(s, p)
    requires a.NewMutex? || a.NewRMutex? || a.NewCond? || a.NewPromise?
    ensures Advance(s, Perform(s, a).0, p, [], false)
  {}

  lemma MutexLockAdvances(s: State, m: MutexId, p: Place)
    requires CanRun(s) && IsWaitQueue(s, p) && m in s.mutexes
    ensures var r := DoMutexLock(s, m); Advance(s, r.0, p, Sleeper(s, r.1, p == InMutex(m)), false)
  {}

  lemma MutexTryLockAdvances(s: State, m: MutexId, p: Place)
    requires CanRun(s) && IsWaitQueue(s, p) && m in s.mutexes
    ensures Advance(s, DoMutexTryLock(s, m).0, p, [], false)
  {}

  lemma HandOnHere(s: State, m: MutexId)
    requires m in s.mutexes
    ensures Advance(s, HandOn(s, m), InMutex(m), [], true)
  {
    var q, s' := s.mutexes[m].pending, HandOn(s, m);
    if q != [] {
      assert q == [q[0]] + q[1..];
      assert s'.strand[|s.strand|..] == [Resume(q[0], NoArgs, true)];
    } else {
      assert s'.strand[|s.strand|..] == [];
    }
  }

  lemma HandOnElsewhere(s: State, m: MutexId, p: Place)
    requires m in s.mutexes && p != InMutex(m) && IsWaitQueue(s, p)
    ensures Advance(s, HandOn(s, m), p, [], false)
  {}

  lemma HandOnAdvances(s: State, m: MutexId, p: Place)
    requires IsWaitQueue(s, p) && m in s.mutexes
    ensures Advance(s, HandOn(s, m), p, [], p == InMutex(m))
  {
    if p == InMutex(m) {
      HandOnHere(s, m);
    } else {
      HandOnElsewhere(s, m, p);
    }
  }

  lemma MutexUnlockAdvances(s: State, m: MutexId, p: Place)
    requires CanRun(s) && IsWaitQueue(s, p) && m in s.mutexes
    ensures Advance(s, DoMutexUnlock(s, m).0, p, [], p == InMutex(m))
  {
    HandOnAdvances(s, m, p);
  }

  lemma RMutexLockAdvances(s: State, m: RMutexId, p: Place)
    requires CanRun(s) && IsWaitQueue(s, p) && m in s.rmutexes
    ensures var r := DoRMutexLock(s, m); Advance(s, r.0, p, Sleeper(s, r.1, p == InRMutex(m)), false)
  {}

  lemma RMutexTryLockAdvances(s: State, m: RMutexId, p: Place)
    requires CanRun(s) && IsWaitQueue(s, p) && m in s.rmutexes
    ensures Advance(s, DoRMutexTryLock(s, m).0, p, [], false)
  {}

  lemma RMutexHandOnAdvances(s: State, m: RMutexId, p: Place)
    requires IsWaitQueue(s, p) && m in s.rmutexes && s.rmutexes[m].pending != []
    ensures var q := s.rmutexes[m].pending;
            Advance(s, Post(s.(rmutexes := s.rmutexes[m := RMutexData(Some(q[0]), 1, q[1..])]), Resume(q[0], NoArgs, true)),
                    p, [], p == InRMutex(m))
  {
    var q := s.rmutexes[m].pending;
    assert q == [q[0]] + q[1..];
  }

  lemma RMutexQueueKept(s: State, s': State, m: RMutexId, p: Place)
    requires IsWaitQueue(s, p) && m in s.rmutexes && OnlyRMutex(s, s', m) && s'.strand == s.strand
    requires m in s'.rmutexes && s'.rmutexes[m].pending == s.rmutexes[m].pending
    ensures Advance(s, s', p, [], p == InRMutex(m))
  {}

  lemma RMutexUnlockAdvances(s: State, m: RMutexId, p: Place)
    requires CanRun(s) && IsWaitQueue(s, p) && m in s.rmutexes
    ensures Advance(s, DoRMutexUnlock(s, m).0, p, [], p == InRMutex(m))
  {
    var s' := DoRMutexUnlock(s, m).0;
    RMutexUnlockFrame(s, m);
    if s'.strand == s.strand {
      RMutexQueueKept(s, s', m, p);
    } else {
      RMutexHandOnAdvances(s, m, p);
    }
  }

  lemma CondWaitAdvances(s: State, c: CondId, m: MutexId, p: Place)
    requires CanRun(s) && IsWaitQueue(s, p) && c in s.conds && m in s.mutexes
    ensures var r := DoCondWait(s, c, m); Advance(s, r.0, p, Sleeper(s, r.1, p == InCond(c)), p == InMutex(m))
  {
    var s' := DoCondWait(s, c, m).0;
    if p == InMutex(m) && s' != s {
      CondWaitHandsOn(s, c, m);
    }
  }

  lemma CondWaitHandsOn(s: State, c: CondId, m: MutexId)
    requires CanRun(s) && c in s.conds && m in s.mutexes && DoCondWait(s, c, m).0 != s
    ensures Advance(s, DoCondWait(s, c, m).0, InMutex(m), [], true)
  {
    var q, s' := s.mutexes[m].pending, DoCondWait(s, c, m).0;
    if q != [] {
      assert q == [q[0]] + q[1..];
      assert s'.strand[|s.strand|..] == [Resume(q[0], NoArgs, true)];
    } else {
      assert s'.strand[|s.strand|..] == [];
    }
  }

  lemma NotifyOneAdvances(s: State, c: CondId, p: Place)
    requires CanRun(s) && IsWaitQueue(s, p) && c in s.conds
    ensures Advance(s, DoNotifyOne(s, c).0, p, [], p == InCond(c))
  {}

  lemma NotifyAllAdvances(s: State, c: CondId, p: Place)
    requires CanRun(s) && IsWaitQueue(s, p) && c in s.conds
    ensures Advance(s, DoNotifyAll(s, c).0, p, [], p == InCond(c))
  {
    var q := s.conds[c];
    assert Targets(seq(|q|, i requires 0 <= i < |q| => Resume(q[i], NoArgs, false))) == q;
  }

  lemma SettleAdvances(s: State, q: PromiseId, d: PromiseData, args: Args, p: Place)
    requires IsWaitQueue(s, p) && q in s.promises && d.waiters == []
    ensures Advance(s, PostAll(s, s.promises[q].waiters, args).(promises := s.promises[q := d]), p, [], p == InFuture(q))
  {
    var f := s.promises[q].waiters;
    assert Targets(seq(|f|, i requires 0 <= i < |f| => Resume(f[i], args, false))) == f;
  }

  lemma SetAdvances(s: State, q: PromiseId, v: Value, p: Place)
    requires CanRun(s) && IsWaitQueue(s, p) && q in s.promises
    ensures Advance(s, DoSetValue(s, q, v).0, p, [], p == InFuture(q))
    ensures Advance(s, DoSetError(s, q, v).0, p, [], p == InFuture(q))
    ensures Advance(s, DoPromiseGc(s, q).0, p, [], p == InFuture(q))
  {
    var d := s.promises[q];
    SettleAdvances(s, q, d.(state := ValueReady(v), waiters := []), Ready(v), p);
    SettleAdvances(s, q, d.(state := ErrorReady(v), waiters := []), Failed(v), p);
    SettleAdvances(s, q, PromiseData(Broken, [], false), Failure(BrokenPromise), p);
  }

  lemma GetAdvances(s: State, q: PromiseId, p: Place)
    requires CanRun(s) && IsWaitQueue(s, p) && q in s.promises
    ensures var r := DoFutureGet(s, q); Advance(s, r.0, p, Sleeper(s, r.1, p == InFuture(q)), false)
  {}

  lemma LockAdvances(s: State, a: Action, p: Place)
    requires CanRun(s) && Enabled(s, a) && IsWaitQueue(s, p)
    requires a.MutexLock? || a.MutexTryLock? || a.MutexUnlock?
          || a.RMutexLock? || a.RMutexTryLock? || a.RMutexUnlock?
    ensures var r := Perform(s, a);
            Advance(s, r.0, p, Sleeper(s, r.1, SleepsOn(a) == Some(p)), Wakes(a, p))
  {
    match a
    case MutexLock(m) => MutexLockAdvances(s, m, p);
    case MutexTryLock(m) => MutexTryLockAdvances(s, m, p);
    case MutexUnlock(m) => MutexUnlockAdvances(s, m, p);
    case RMutexLock(m) => RMutexLockAdvances(s, m, p);
    case RMutexTryLock(m) => RMutexTryLockAdvances(s, m, p);
    case RMutexUnlock(m) => RMutexUnlockAdvances(s, m, p);
  }

  lemma CondAdvances(s: State, a: Action, p: Place)
    requires CanRun(s) && Enabled(s, a) && IsWaitQueue(s, p) && (a.CondWait? || a.NotifyOne? || a.NotifyAll?)
    ensures var r := Perform(s, a);
            Advance(s, r.0, p, Sleeper(s, r.1, SleepsOn(a) == Some(p)), Wakes(a, p))
  {
    match a
    case CondWait(c, m) => CondWaitAdvances(s, c, m, p);
    case NotifyOne(c) => NotifyOneAdvances(s, c, p);
    case NotifyAll(c) => NotifyAllAdvances(s, c, p);
  }

  lemma FutureAdvances(s: State, a: Action, p: Place)
    requires CanRun(s) && Enabled(s, a) && IsWaitQueue(s, p)
    requires a.SetValue? || a.SetError? || a.PromiseGc? || a.FutureGet?
    ensures var r := Perform(s, a);
            Advance(s, r.0, p, Sleeper(s, r.1, SleepsOn(a) == Some(p)), Wakes(a, p))
  {
    match a
    case SetValue(q, v) => SetAdvances(s, q, v, p);
    case SetError(q, v) => SetAdvances(s, q, v, p);
    case PromiseGc(q) => SetAdvances(s, q, Nil, p);
    case FutureGet(q) => GetAdvances(s, q, p);
  }

  lemma PerformAdvances(s: State, a: Action, p: Place)
    requires CanRun(s) && Enabled(s, a) && IsWaitQueue(s, p) && !a.Interrupt? && !a.RunNext?
    ensures var r := Perform(s, a);
            Advance(s, r.0, p, Sleeper(s, r.1, SleepsOn(a) == Some(p)), Wakes(a, p))
  {
    if OnFibers(a) {
      QuietStep(s, a);
      QuietAdvances(s, Perform(s, a).0, p);
    } else if a.NewMutex? || a.NewRMutex? || a.NewCond? || a.NewPromise? {
      NewAdvances(s, a, p);
    } else if a.CondWait? || a.NotifyOne? || a.NotifyAll? {
      CondAdvances(s, a, p);
    } else if a.SetValue? || a.SetError? || a.PromiseGc? || a.FutureGet? {
      FutureAdvances(s, a, p);
    } else {
      LockAdvances(s, a, p);
    }
  }

  lemma InterruptEvicts(s: State, w: Places, h: HandleId, p: Place)
    requires InStep(s, w) && h in s.handles && IsWaitQueue(s, p)
    ensures var s' := DoInterrupt(s, h).0;
            if |s'.strand| > |s.strand| && s'.strand[|s.strand|].fiber in Queue(s, p)
            then Queue(s', p) == Erase(Queue(s, p), s'.strand[|s.strand|].fiber)
            else Queue(s', p) == Queue(s, p)
  {
    assert HandleOk(s, h);
    if s.handles[h].fiber.Some? {
      RunningPlace(s, w);
      if h == s.control.fiber || s.fibers[h].interruptionDisabled > 0 || !Interruptible(w[h]) {
        InterruptFindsNobody(s, w, h);
      } else {
        WakeEvicts(s, w, h, p);
      }
    }
  }

  /** Whoever is interrupted out of a wait leaves that queue and no other. */
  lemma WakeEvicts(s: State, w: Places, h: HandleId, p: Place)
    requires InStep(s, w) && h in s.handles && s.handles[h].fiber == Some(h) && h != s.control.fiber && h in w
    requires s.fibers[h].interruptionDisabled == 0 && Interruptible(w[h]) && IsWaitQueue(s, p)
    ensures var s' := DoInterrupt(s, h).0;
            && |s'.strand| == |s.strand| + 1 && s'.strand[|s.strand|].fiber == h
            && (if h in Queue(s, p) then Queue(s', p) == Erase(Queue(s, p), h) else Queue(s', p) == Queue(s, p))
  {
    InterruptWakes(s, w, h);
    assert InterruptOk(s, w, h);
    Members(s, w, p);
    Members(s, w, w[h]);
  }

  lemma InterruptKeepsObjects(s: State, h: HandleId, p: Place)
    requires CanRun(s) && h in s.handles && IsWaitQueue(s, p)
    ensures IsWaitQueue(DoInterrupt(s, h).0, p)
  {}

  lemma InterruptSparesLocks(s: State, w: Places, h: HandleId, p: Place)
    requires InStep(s, w) && h in s.handles && (p.InMutex? || p.InRMutex?)
    ensures var s' := DoInterrupt(s, h).0;
            |s'.strand| > |s.strand| ==> s'.strand[|s.strand|].fiber !in Queue(s, p)
  {
    assert HandleOk(s, h);
    if s.handles[h].fiber.Some? {
      RunningPlace(s, w);
      Members(s, w, p);
      if h == s.control.fiber || s.fibers[h].interruptionDisabled > 0 || !Interruptible(w[h]) {
        InterruptFindsNobody(s, w, h);
      } else {
        InterruptWakes(s, w, h);
      }
    }
  }

  lemma InterruptStep(s: State, h: HandleId, p: Place)
    requires Coherent(s) && Enabled(s, Interrupt(h)) && IsWaitQueue(s, p)
    ensures IsWaitQueue(Next(s, Interrupt(h)), p)
    ensures QueueAdvances(s, Interrupt(h), p) || QueueEvicts(s, Interrupt(h), p)
    ensures p.InMutex? || p.InRMutex? ==> QueueAdvances(s, Interrupt(h), p)
  {
    CoherentWellFormed(s);
    var w :| Inv(s, w);
    InterruptStrand(s, h);
    InterruptEvicts(s, w, h, p);
    InterruptKeepsObjects(s, h, p);
    if p.InMutex? || p.InRMutex? {
      InterruptSparesLocks(s, w, h, p);
    }
    InterruptSeen(s, h, p);
  }

  lemma InterruptSeen(s: State, h: HandleId, p: Place)
    requires CanRun(s) && h in s.handles
    requires var s' := DoInterrupt(s, h).0;
             && s.strand <= s'.strand && |s'.strand| <= |s.strand| + 1
             && if |s'.strand| > |s.strand| && s'.strand[|s.strand|].fiber in Queue(s, p)
                then Queue(s', p) == Erase(Queue(s, p), s'.strand[|s.strand|].fiber)
                else Queue(s', p) == Queue(s, p)
    ensures Next(s, Interrupt(h)) == DoInterrupt(s, h).0
    ensures if Evicted(s, Interrupt(h), p) == [] then QueueAdvances(s, Interrupt(h), p) else QueueEvicts(s, Interrupt(h), p)
    ensures Evicted(s, Interrupt(h), p) != [] ==>
              var s' := DoInterrupt(s, h).0;
              |s'.strand| > |s.strand| && s'.strand[|s.strand|].fiber in Queue(s, p)
  {
    assert Step(s, Interrupt(h)) == DoInterrupt(s, h);
    var q := Queue(s, p);
    assert q + [] == q && [] + q == q;
  }

  /** A step that comes out as `Advance` says is seen as such. */
  lemma AdvanceSeen(s: State, a: Action, p: Place)
    requires CanRun(s) && Enabled(s, a) && !a.Interrupt? && !a.RunNext?
    requires var r := Perform(s, a);
             Advance(s, r.0, p, Sleeper(s, r.1, SleepsOn(a) == Some(p)), Wakes(a, p))
    ensures IsWaitQueue(Next(s, a), p) && QueueAdvances(s, a, p)
  {
    assert Step(s, a) == Perform(s, a);
  }

  lemma IdleSeen(s: State, a: Action, p: Place)
    requires IsWaitQueue(s, p) && !Enabled(s, a)
    ensures IsWaitQueue(Next(s, a), p) && QueueAdvances(s, a, p)
  {
    assert Step(s, a) == (s, NotEnabled);
  }

  lemma RunNextSeen(s: State, p: Place)
    requires WellFormed(s) && IsWaitQueue(s, p) && Enabled(s, RunNext)
    ensures IsWaitQueue(Next(s, RunNext), p) && QueueAdvances(s, RunNext, p)
  {
    assert Step(s, RunNext) == DoRunNext(s);
  }

  /** Every step moves every wait queue in one of the two ways. */
  lemma QueueStep(s: State, a: Action, p: Place)
    requires Coherent(s) && IsWaitQueue(s, p)
    ensures IsWaitQueue(Next(s, a), p)
    ensures QueueAdvances(s, a, p) || QueueEvicts(s, a, p)
    ensures p.InMutex? || p.InRMutex? ==> QueueAdvances(s, a, p)
  {
    CoherentWellFormed(s);
    if !Enabled(s, a) {
      IdleSeen(s, a, p);
    } else if a.RunNext? {
      RunNextSeen(s, p);
    } else if a.Interrupt? {
      InterruptStep(s, a.handle, p);
    } else {
      PerformAdvances(s, a, p);
      AdvanceSeen(s, a, p);
    }
  }
}
