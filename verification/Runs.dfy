/** What holds in every reachable state of the fiber runtime. */
module Runs {
  import opened Wrappers
  import opened Sequences
  import opened Runtime
  import opened Placement
  import opened Invariant
  import opened Preservation
  import opened PreservationInterrupt
  import opened PreservationSync

  lemma FiberStepKeeps(s: State, w: Places, a: Action) returns (w': Places)
    requires InStep(s, w) && Enabled(s, a)
    requires a.Spawn? || a.Yield? || a.Join? || a.Detach? || a.GcHandle? || a.Interrupt? || a.Finish?
    ensures Inv(Perform(s, a).0, w')
  {
    w' := w;
    if a.Detach? || a.GcHandle? { assert HandleOk(s, a.handle); }
    match a
    case Spawn => w' := Spawned(s, w);
    case Yield => w' := Yielded(s, w);
    case Join(h) => w' := JoinCalled(s, w, h);
    case Detach(h) =>
      if s.handles[h].fiber.Some? && !s.handles[h].joinInProgress { w' := Preservation.Released(s, w, h); }
    case GcHandle(h) =>
      if s.handles[h].fiber.Some? && !s.handles[h].joinInProgress { w' := Preservation.Released(s, w, h); }
    case Interrupt(h) => w' := InterruptCalled(s, w, h);
    case Finish(o) => w' := FinishCalled(s, w, o);
  }

  lemma LockStepKeeps(s: State, w: Places, a: Action) returns (w': Places)
    requires InStep(s, w) && Enabled(s, a)
    requires a.NewMutex? || a.MutexLock? || a.MutexTryLock? || a.MutexUnlock?
          || a.NewRMutex? || a.RMutexLock? || a.RMutexTryLock? || a.RMutexUnlock?
    ensures Inv(Perform(s, a).0, w')
  {
    w' := w;
    match a
    case NewMutex(m) => MutexRelabeled(s, w, m, MutexData(false, []));
    case MutexLock(m) => w' := MutexLockCalled(s, w, m);
    case MutexTryLock(m) => MutexTryLockCalled(s, w, m);
    case MutexUnlock(m) => if s.mutexes[m].locked { w' := HandedOn(s, w, m); }
    case NewRMutex(m) => RMutexRelabeled(s, w, m, RMutexData(None, 0, []));
    case RMutexLock(m) => w' := RMutexLockCalled(s, w, m);
    case RMutexTryLock(m) => RMutexTryLockCalled(s, w, m);
    case RMutexUnlock(m) => w' := RMutexUnlockCalled(s, w, m);
  }

  lemma CondStepKeeps(s: State, w: Places, a: Action) returns (w': Places)
    requires InStep(s, w) && Enabled(s, a) && (a.NewCond? || a.CondWait? || a.NotifyOne? || a.NotifyAll?)
    ensures Inv(Perform(s, a).0, w')
  {
    w' := w;
    match a
    case NewCond(c) => CondMade(s, w, c);
    case CondWait(c, m) => w' := CondWaitCalled(s, w, c, m);
    case NotifyOne(c) => w' := NotifyOneCalled(s, w, c);
    case NotifyAll(c) => w' := NotifyAllCalled(s, w, c);
  }

  lemma FutureStepKeeps(s: State, w: Places, a: Action) returns (w': Places)
    requires InStep(s, w) && Enabled(s, a)
    requires a.NewPromise? || a.SetValue? || a.SetError? || a.PromiseGc? || a.FutureGet?
    ensures Inv(Perform(s, a).0, w')
  {
    w' := w;
    match a
    case NewPromise(p) => PromiseMade(s, w, p);
    case SetValue(p, v) => w' := SetValueCalled(s, w, p, v);
    case SetError(p, v) => w' := SetErrorCalled(s, w, p, v);
    case PromiseGc(p) => w' := PromiseGcCalled(s, w, p);
    case FutureGet(p) => w' := FutureGetCalled(s, w, p);
  }

  lemma CounterStepKeeps(s: State, w: Places, a: Action)
    requires InStep(s, w) && Enabled(s, a)
    requires a.DisableInterruption? || a.RestoreInterruption? || a.ForbidSuspend? || a.AllowSuspend?
    ensures Inv(Perform(s, a).0, w)
  {
    match a
    case DisableInterruption => DisabledInterruption(s, w);
    case RestoreInterruption => RestoredInterruption(s, w);
    case ForbidSuspend => ForbadeSuspend(s, w);
    case AllowSuspend => AllowedSuspend(s, w);
  }

  lemma PerformKeeps(s: State, w: Places, a: Action) returns (w': Places)
    requires Inv(s, w) && WellFormed(s) && Enabled(s, a)
    ensures Inv(Perform(s, a).0, w')
  {
    if a.RunNext? {
      w' := RanNext(s, w);
    } else if a.DisableInterruption? || a.RestoreInterruption? || a.ForbidSuspend? || a.AllowSuspend? {
      CounterStepKeeps(s, w, a);
      w' := w;
    } else if a.Spawn? || a.Yield? || a.Join? || a.Detach? || a.GcHandle? || a.Interrupt? || a.Finish? {
      w' := FiberStepKeeps(s, w, a);
    } else if a.NewCond? || a.CondWait? || a.NotifyOne? || a.NotifyAll? {
      w' := CondStepKeeps(s, w, a);
    } else if a.NewPromise? || a.SetValue? || a.SetError? || a.PromiseGc? || a.FutureGet? {
      w' := FutureStepKeeps(s, w, a);
    } else {
      w' := LockStepKeeps(s, w, a);
    }
  }

  lemma StepKeeps(s: State, w: Places, a: Action) returns (w': Places)
    requires Inv(s, w)
    ensures Inv(Next(s, a), w')
    ensures Enabled(s, a) ==> WellFormed(s) && Step(s, a) == Perform(s, a)
  {
    InvWellFormed(s, w);
    w' := w;
    if Enabled(s, a) {
      w' := PerformKeeps(s, w, a);
    }
  }

  /** One step keeps coherence, and an enabled action is really performed. */
  lemma CoherentStep(s: State, a: Action)
    requires Coherent(s)
    ensures Coherent(Next(s, a))
    ensures Enabled(s, a) ==> WellFormed(s) && Step(s, a) == Perform(s, a)
  {
    var w :| Inv(s, w);
    var w' := StepKeeps(s, w, a);
  }

  lemma CoherentWellFormed(s: State)
    requires Coherent(s)
    ensures WellFormed(s)
  {
    var w :| Inv(s, w);
    InvWellFormed(s, w);
  }

  lemma {:induction false} CoherentRun(s: State, run: seq<Action>)
    requires Coherent(s)
    ensures Coherent(Exec(s, run))
    decreases |run|
  {
    if run != [] {
      CoherentStep(s, run[0]);
      CoherentRun(Next(s, run[0]), run[1..]);
    }
  }

  lemma ReachableCoherent(run: seq<Action>)
    ensures Coherent(Exec(Init(), run))
  {
    InitCoherent();
    CoherentRun(Init(), run);
  }

  // ---------------------------------------------------------------- one place for each fiber

  ghost predicate At(s: State, f: Fiber, p: Place) {
    if p == AtEnd then f in s.fibers && s.fibers[f].status.Finished? else f in Queue(s, p)
  }

  /** No fiber is lost, none is in two places, and no queue names a fiber twice. */
  ghost predicate SinglyPlaced(s: State) {
    && (forall f :: f in s.fibers ==> exists p :: At(s, f, p))
    && (forall f, p, q :: At(s, f, p) && At(s, f, q) ==> f in s.fibers && p == q)
    && (forall p :: Distinct(Queue(s, p)))
  }

  lemma CoherentSinglyPlaced(s: State)
    requires Coherent(s)
    ensures SinglyPlaced(s)
  {
    var w :| Inv(s, w);
    forall f, p | At(s, f, p) ensures f in w && w[f] == p {
      if p != AtEnd { Members(s, w, p); }
    }
    forall f | f in s.fibers ensures exists p :: At(s, f, p) {
      if w[f] != AtEnd { Members(s, w, w[f]); }
      assert At(s, f, w[f]);
    }
    forall p ensures Distinct(Queue(s, p)) {
      if p != AtEnd { Members(s, w, p); }
    }
  }

  /** In every reachable state each fiber is in exactly one place. */
  lemma SinglePlacement(run: seq<Action>)
    ensures SinglyPlaced(Exec(Init(), run))
  {
    ReachableCoherent(run);
    CoherentSinglyPlaced(Exec(Init(), run));
  }

  /** Fiber `f` is suspended and nothing but place `p` holds it. */
  ghost predicate OnlyAt(s: State, f: Fiber, p: Place) {
    && f in s.fibers && s.fibers[f].status.Running?
    && !(s.control.Active? && s.control.fiber == f)
    && (forall q :: f in Queue(s, q) ==> q == p)
  }

  /** No posted closure and no finishing fiber ever resumes a fiber that is not suspended for it. */
  lemma NoSpuriousResume(run: seq<Action>)
    ensures var s := Exec(Init(), run);
            && (forall i :: 0 <= i < |s.strand| ==> OnlyAt(s, s.strand[i].fiber, Posted))
            && (forall i, j :: 0 <= i < j < |s.strand| ==> s.strand[i].fiber != s.strand[j].fiber)
            && (s.control.Active? && s.control.fiber in s.fibers && s.fibers[s.control.fiber].joiner.Joined? ==>
                  OnlyAt(s, s.fibers[s.control.fiber].joiner.fiber, InJoin(s.control.fiber)))
  {
    var s := Exec(Init(), run);
    ReachableCoherent(run);
    CoherentSinglyPlaced(s);
    var w :| Inv(s, w);
    InvWellFormed(s, w);
    forall i | 0 <= i < |s.strand| ensures OnlyAt(s, s.strand[i].fiber, Posted) {
      assert Targets(s.strand)[i] in Queue(s, Posted);
      PostedPlace(s, w, i);
      OnlyWhere(s, w, s.strand[i].fiber);
    }
    forall i, j | 0 <= i < j < |s.strand| ensures s.strand[i].fiber != s.strand[j].fiber {
      assert Distinct(Queue(s, Posted));
      assert Targets(s.strand)[i] != Targets(s.strand)[j];
    }
    if s.control.Active? && s.fibers[s.control.fiber].joiner.Joined? {
      JoinerPlace(s, w, s.control.fiber);
      OnlyWhere(s, w, s.fibers[s.control.fiber].joiner.fiber);
    }
  }

  lemma OnlyWhere(s: State, w: Places, f: Fiber)
    requires Inv(s, w) && f in w && w[f] != AtEnd && w[f] != OnCpu
    ensures OnlyAt(s, f, w[f])
  {
    forall q | f in Queue(s, q) ensures q == w[f] {
      if q != AtEnd { Members(s, w, q); }
    }
    Members(s, w, OnCpu);
    if s.control.Active? { assert s.control.fiber in Queue(s, OnCpu); }
  }

  // ---------------------------------------------------------------- interruption

  /** Nobody who may be interrupted, and has been, still sleeps in an interruptible wait. */
  ghost predicate NoMissedInterruption(s: State) {
    forall f, p :: f in Queue(s, p) && Interruptible(p) ==>
      f in s.fibers && !(s.fibers[f].interrupted && s.fibers[f].interruptionDisabled == 0)
  }

  /** The interrupter of `f` is for the wait it is in, or for the wait a posted resume has ended. */
  ghost predicate InterrupterBelongs(s: State, f: Fiber)
    requires f in s.fibers
  {
    match s.fibers[f].interrupter
    case NoInterrupter => true
    case CondInterrupter(c, g) => g == f && (f in Queue(s, InCond(c)) || f in Queue(s, Posted))
    case FutureInterrupter(p, g) => g == f && (f in Queue(s, InFuture(p)) || f in Queue(s, Posted))
    case JoinInterrupter(h, g, t) => g == f && h == t && Queue(s, InJoin(t)) == [f]
  }

  lemma PlacedInterrupter(s: State, w: Places, f: Fiber)
    requires Inv(s, w) && f in w
    ensures InterrupterBelongs(s, f)
  {
    assert InterruptOk(s, w, f);
    if w[f] != AtEnd { Members(s, w, w[f]); }
  }

  lemma PlacedInterruption(s: State, w: Places, f: Fiber, p: Place)
    requires Inv(s, w) && f in Queue(s, p) && Interruptible(p)
    ensures f in s.fibers && !(s.fibers[f].interrupted && s.fibers[f].interruptionDisabled == 0)
  {
    Members(s, w, p);
    assert InterruptOk(s, w, f);
  }

  ghost predicate InterruptionsComplete(s: State) {
    && NoMissedInterruption(s)
    && (forall f :: f in s.fibers ==> InterrupterBelongs(s, f))
    && (s.control.Active? && s.control.fiber in s.fibers ==> s.fibers[s.control.fiber].interrupter == NoInterrupter)
  }

  lemma InterruptionsInInv(s: State, w: Places)
    requires Inv(s, w)
    ensures InterruptionsComplete(s)
  {
    forall f, p | f in Queue(s, p) && Interruptible(p)
      ensures f in s.fibers && !(s.fibers[f].interrupted && s.fibers[f].interruptionDisabled == 0)
    {
      PlacedInterruption(s, w, f, p);
    }
    forall f | f in s.fibers ensures InterrupterBelongs(s, f) {
      PlacedInterrupter(s, w, f);
    }
    if s.control.Active? {
      RunningPlace(s, w);
      assert InterruptOk(s, w, s.control.fiber);
    }
  }

  /** Whether an interruption of `t` has somebody to wake. */
  ghost predicate Wakeable(s: State, t: Fiber) {
    t in s.fibers && s.fibers[t].interruptionDisabled == 0 && exists p :: Interruptible(p) && t in Queue(s, p)
  }

  ghost predicate Joining(s: State, t: Fiber) {
    exists p: Place :: p.InJoin? && t in Queue(s, p)
  }

  lemma InterruptWakes(s: State, w: Places, t: Fiber)
    requires InStep(s, w) && t in w && Interruptible(w[t]) && s.fibers[t].interruptionDisabled == 0
    requires t in s.handles && s.handles[t].fiber == Some(t) && t != s.control.fiber
    ensures DoInterrupt(s, t).0.strand == s.strand +
              [Resume(t, if w[t].InJoin? then JoinInterrupted else Failure(Interrupted), false)]
  {
    assert InterruptOk(s, w, t);
    Members(s, w, w[t]);
  }

  lemma InterruptFindsNobody(s: State, w: Places, t: Fiber)
    requires InStep(s, w) && t in s.handles && s.handles[t].fiber == Some(t) && t in w
    requires t == s.control.fiber || s.fibers[t].interruptionDisabled > 0 || !Interruptible(w[t])
    ensures DoInterrupt(s, t).0 == SetData(s, t, Mark(s.fibers[t]))
  {
    RunningPlace(s, w);
    assert InterruptOk(s, w, t);
    match s.fibers[t].interrupter
    case CondInterrupter(c, g) => WaiterPlace(s, w, InCond(c), t);
    case FutureInterrupter(p, g) => WaiterPlace(s, w, InFuture(p), t);
    case _ =>
  }

  lemma WakeableWhere(s: State, w: Places, t: Fiber)
    requires Inv(s, w) && t in w
    ensures Wakeable(s, t) <==> s.fibers[t].interruptionDisabled == 0 && Interruptible(w[t])
    ensures Joining(s, t) <==> w[t].InJoin?
  {
    forall p | Interruptible(p) ensures t in Queue(s, p) <==> w[t] == p {
      Members(s, w, p);
    }
  }

  /**
    Interrupting posts one closure for a fiber in an interruptible wait, and nothing for anybody else. A join is
    told apart from the other waits.
   */
  lemma InterruptPostsOnce(s: State, h: HandleId)
    requires Coherent(s) && Enabled(s, Interrupt(h)) && s.handles[h].fiber.Some?
    ensures var s' := Next(s, Interrupt(h));
            var t := s.handles[h].fiber.value;
            if Wakeable(s, t)
            then s'.strand == s.strand + [Resume(t, if Joining(s, t) then JoinInterrupted else Failure(Interrupted), false)]
            else s'.strand == s.strand
  {
    CoherentStep(s, Interrupt(h));
    var w :| Inv(s, w);
    assert HandleOk(s, h);
    RunningPlace(s, w);
    WakeableWhere(s, w, h);
    if Wakeable(s, h) {
      InterruptWakes(s, w, h);
    } else {
      InterruptFindsNobody(s, w, h);
    }
  }

  /** A second interruption changes nothing at all. */
  lemma InterruptTwice(s: State, h: HandleId)
    requires Coherent(s) && Enabled(s, Interrupt(h))
    ensures var s1 := Next(s, Interrupt(h)); Next(s1, Interrupt(h)) == s1
  {
    CoherentStep(s, Interrupt(h));
    var s1 := Next(s, Interrupt(h));
    var w :| Inv(s, w);
    assert HandleOk(s, h);
    if s.handles[h].fiber.Some? {
      InterruptMarks(s, w, h);
      CoherentStep(s1, Interrupt(h));
      InterruptAgain(s1, h);
    }
  }

  lemma InterruptAgain(s: State, h: HandleId)
    requires CanRun(s) && h in s.handles && s.handles[h].fiber == Some(h) && h in s.fibers
    requires s.fibers[h].interrupted && s.fibers[h].interrupter == NoInterrupter
    ensures DoInterrupt(s, h).0 == s
  {
    assert SetData(s, h, s.fibers[h].(interrupted := true)) == s;
  }

  lemma InterruptMarks(s: State, w: Places, t: Fiber)
    requires InStep(s, w) && t in s.handles && s.handles[t].fiber == Some(t) && t in s.fibers
    ensures var s1 := DoInterrupt(s, t).0;
            && t in s1.handles && s1.handles[t].fiber == Some(t) && t in s1.fibers
            && s1.control == s.control
            && s1.fibers[t].interrupted && s1.fibers[t].interrupter == NoInterrupter
  {
    RunningPlace(s, w);
    assert InterruptOk(s, w, t);
  }

  // ---------------------------------------------------------------- joins

  /** Handle and fiber agree about who joins whom, and the joiner really sleeps in the slot. */
  ghost predicate JoinsAgree(s: State) {
    && (forall h :: h in s.handles && s.handles[h].fiber.Some? ==>
          && s.handles[h].fiber.value in s.fibers
          && (s.handles[h].joinInProgress <==> Queue(s, InJoin(s.handles[h].fiber.value)) != []))
    && (forall t: Fiber, j :: j in Queue(s, InJoin(t)) ==>
          && t != j && OnlyAt(s, j, InJoin(t))
          && exists h :: h in s.handles && s.handles[h].fiber == Some(t) && s.handles[h].joinInProgress)
    && (forall h, k :: h in s.handles && k in s.handles && h != k && s.handles[h].fiber.Some? ==>
          s.handles[k].fiber != s.handles[h].fiber)
  }

  lemma JoinsInInv(s: State, w: Places)
    requires Inv(s, w)
    ensures JoinsAgree(s)
  {
    forall h | h in s.handles && s.handles[h].fiber.Some?
      ensures s.handles[h].fiber.value in s.fibers
      ensures s.handles[h].joinInProgress <==> Queue(s, InJoin(s.handles[h].fiber.value)) != []
    {
      assert HandleOk(s, h);
    }
    forall t: Fiber, j | j in Queue(s, InJoin(t))
      ensures t != j && OnlyAt(s, j, InJoin(t))
      ensures exists h :: h in s.handles && s.handles[h].fiber == Some(t) && s.handles[h].joinInProgress
    {
      Members(s, w, InJoin(t));
      JoinTarget(s, w, j, t);
      assert OwnerOk(s, t);
      OnlyWhere(s, w, j);
    }
    forall h, k | h in s.handles && k in s.handles && h != k && s.handles[h].fiber.Some?
      ensures s.handles[k].fiber != s.handles[h].fiber
    {
      assert HandleOk(s, h) && HandleOk(s, k);
    }
  }

  /** In every reachable state handles and joiners agree. */
  lemma JoinCoherence(run: seq<Action>)
    ensures JoinsAgree(Exec(Init(), run))
  {
    ReachableCoherent(run);
    var w :| Inv(Exec(Init(), run), w);
    JoinsInInv(Exec(Init(), run), w);
  }
}
