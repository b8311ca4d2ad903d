/** What the synchronization primitives guarantee over whole runs. */
module Guarantees {
  import opened Wrappers
  import opened SizeT
  import opened Sequences
  import opened Runtime
  import opened Placement
  import opened Invariant
  import opened Runs
  import opened Traces

  ghost predicate IsLockQueue(s: State, p: Place) {
    IsWaitQueue(s, p) && (p.InMutex? || p.InRMutex?)
  }

  /** Locks are granted in the order of arrival: granted, then still waiting, is waiting, then arrived. */
  lemma {:induction false} LockFifo(s: State, run: seq<Action>, p: Place)
    requires Coherent(s) && IsLockQueue(s, p)
    ensures Queue(s, p) + ArrivedIn(s, run, p) == WokenIn(s, run, p) + Queue(Exec(s, run), p)
    decreases |run|
  {
    if run != [] {
      var s1 := Next(s, run[0]);
      CoherentStep(s, run[0]);
      QueueStep(s, run[0], p);
      LockFifo(s1, run[1..], p);
      Chain(Queue(s, p), Arrived(s, run[0], p), Woken(s, run[0], p), Queue(s1, p),
            ArrivedIn(s1, run[1..], p), WokenIn(s1, run[1..], p), Queue(Exec(s1, run[1..]), p));
    }
  }

  /** Waits entered are waits ended by a wake-up, waits ended by an interruption, and waits still pending. */
  lemma {:induction false} WaitersConserved(s: State, run: seq<Action>, p: Place)
    requires Coherent(s) && IsWaitQueue(s, p)
    ensures multiset(Queue(s, p)) + multiset(ArrivedIn(s, run, p))
         == multiset(WokenIn(s, run, p)) + multiset(EvictedIn(s, run, p)) + multiset(Queue(Exec(s, run), p))
    decreases |run|
  {
    if run != [] {
      var s1, a, rest := Next(s, run[0]), run[0], run[1..];
      CoherentStep(s, a);
      QueueStep(s, a, p);
      WaitersConserved(s1, rest, p);
      StepConserves(s, a, p);
      SumsChain(
        multiset(Queue(s, p)), multiset(Arrived(s, a, p)), multiset(Woken(s, a, p)), multiset(Evicted(s, a, p)),
        multiset(Queue(s1, p)), multiset(ArrivedIn(s1, rest, p)), multiset(WokenIn(s1, rest, p)),
        multiset(EvictedIn(s1, rest, p)), multiset(Queue(Exec(s1, rest), p)));
    }
  }

  lemma SumsChain(q: multiset<Fiber>, a: multiset<Fiber>, w: multiset<Fiber>, e: multiset<Fiber>, q1: multiset<Fiber>,
                  aLater: multiset<Fiber>, wLater: multiset<Fiber>, eLater: multiset<Fiber>, end: multiset<Fiber>)
    requires q + a == w + e + q1
    requires q1 + aLater == wLater + eLater + end
    ensures q + (a + aLater) == (w + wLater) + (e + eLater) + end
  {
    forall x ensures (q + (a + aLater))[x] == ((w + wLater) + (e + eLater) + end)[x] {
      assert (q + a)[x] == (w + e + q1)[x];
      assert (q1 + aLater)[x] == (wLater + eLater + end)[x];
    }
  }

  lemma StepConserves(s: State, a: Action, p: Place)
    requires QueueAdvances(s, a, p) || QueueEvicts(s, a, p)
    ensures multiset(Queue(s, p)) + multiset(Arrived(s, a, p))
         == multiset(Woken(s, a, p)) + multiset(Evicted(s, a, p)) + multiset(Queue(Next(s, a), p))
  {
    if QueueAdvances(s, a, p) {
      SumOfParts(Queue(s, p), Arrived(s, a, p), Woken(s, a, p), Queue(Next(s, a), p));
    } else {
      EraseMultiset(Queue(s, p), Evicted(s, a, p)[0]);
      assert Evicted(s, a, p) == [Evicted(s, a, p)[0]];
    }
  }

  lemma SumOfParts(a: seq<Fiber>, b: seq<Fiber>, c: seq<Fiber>, d: seq<Fiber>)
    requires a + b == c + d
    ensures multiset(a) + multiset(b) == multiset(c) + multiset(d)
  {
    assert multiset(a + b) == multiset(c + d);
  }

  /** Wake-ups follow the order of arrival among those not interrupted. */
  lemma {:induction false} WaitersInOrder(s: State, run: seq<Action>, p: Place)
    requires Coherent(s) && IsWaitQueue(s, p)
    ensures Subsequence(WokenIn(s, run, p) + Queue(Exec(s, run), p), Queue(s, p) + ArrivedIn(s, run, p))
    decreases |run|
  {
    if run == [] {
      SubsequenceSelf(Queue(s, p));
      assert [] + Queue(s, p) == Queue(s, p) && Queue(s, p) + [] == Queue(s, p);
    } else {
      var s1, a, rest := Next(s, run[0]), run[0], run[1..];
      CoherentStep(s, a);
      QueueStep(s, a, p);
      WaitersInOrder(s1, rest, p);
      if QueueAdvances(s, a, p) {
        AdvanceInOrder(Queue(s, p), Arrived(s, a, p), Woken(s, a, p), Queue(s1, p),
                       ArrivedIn(s1, rest, p), WokenIn(s1, rest, p), Queue(Exec(s1, rest), p));
      } else {
        EvictInOrder(Queue(s, p), Evicted(s, a, p)[0], ArrivedIn(s1, rest, p),
                     WokenIn(s1, rest, p) + Queue(Exec(s1, rest), p));
        assert [] + ArrivedIn(s1, rest, p) == ArrivedIn(s1, rest, p);
        assert [] + WokenIn(s1, rest, p) == WokenIn(s1, rest, p);
      }
    }
  }

  lemma AdvanceInOrder(q: seq<Fiber>, arrived: seq<Fiber>, woken: seq<Fiber>, q1: seq<Fiber>,
                       arrivedLater: seq<Fiber>, wokenLater: seq<Fiber>, end: seq<Fiber>)
    requires q + arrived == woken + q1
    requires Subsequence(wokenLater + end, q1 + arrivedLater)
    ensures Subsequence((woken + wokenLater) + end, q + (arrived + arrivedLater))
  {
    SubsequenceSelf(woken);
    SubsequenceConcat(woken, woken, wokenLater + end, q1 + arrivedLater);
    Regroup(woken, wokenLater, end);
    Regroup(woken, q1, arrivedLater);
    Regroup(q, arrived, arrivedLater);
  }

  lemma Regroup(a: seq<Fiber>, b: seq<Fiber>, c: seq<Fiber>)
    ensures a + (b + c) == (a + b) + c
  {}

  lemma EvictInOrder(q: seq<Fiber>, f: Fiber, later: seq<Fiber>, end: seq<Fiber>)
    requires Subsequence(end, Erase(q, f) + later)
    ensures Subsequence(end, q + later)
  {
    EraseSubsequence(q, f);
    SubsequenceSelf(later);
    SubsequenceConcat(Erase(q, f), q, later, later);
    SubsequenceTransitive(end, Erase(q, f) + later, q + later);
  }

  /** A fiber that sleeps on an object sleeps on until a wake-up or an interruption was posted for it. */
  lemma NoLostWakeUp(s: State, run: seq<Action>, p: Place, f: Fiber)
    requires Coherent(s) && IsWaitQueue(s, p)
    requires f in Queue(s, p) || f in ArrivedIn(s, run, p)
    ensures f in Queue(Exec(s, run), p) || f in WokenIn(s, run, p) || f in EvictedIn(s, run, p)
  {
    WaitersConserved(s, run, p);
    assert f in multiset(Queue(s, p)) + multiset(ArrivedIn(s, run, p));
  }

  // ---------------------------------------------------------------- mutex

  /** Acquisitions of `m` in a step: successful calls, and the ownership handed to the head of the queue. */
  ghost function Acquired(s: State, a: Action, m: MutexId): nat {
    (if (a == MutexLock(m) && Step(s, a).1 == Done) || (a == MutexTryLock(m) && Step(s, a).1 == Bool(true))
     then 1 else 0) + |Woken(s, a, InMutex(m))|
  }

  /** Releases of `m`: successful unlocks, and the unlock inside `cond_wait`. */
  ghost function Dropped(s: State, a: Action, m: MutexId): nat {
    if (a == MutexUnlock(m) && Step(s, a).1 == Done) || (a.CondWait? && a.mutex == m && Step(s, a).1 == Suspended)
    then 1 else 0
  }

  ghost function AcquiredIn(s: State, run: seq<Action>, m: MutexId): nat
    decreases |run|
  {
    if run == [] then 0 else Acquired(s, run[0], m) + AcquiredIn(Next(s, run[0]), run[1..], m)
  }

  ghost function DroppedIn(s: State, run: seq<Action>, m: MutexId): nat
    decreases |run|
  {
    if run == [] then 0 else Dropped(s, run[0], m) + DroppedIn(Next(s, run[0]), run[1..], m)
  }

  function HeldCount(s: State, m: MutexId): nat
    requires m in s.mutexes
  {
    if s.mutexes[m].locked then 1 else 0
  }

  lemma MutexUnmentioned(s: State, a: Action, m: MutexId)
    requires CanRun(s) && Enabled(s, a) && m in s.mutexes
    requires a != MutexLock(m) && a != MutexTryLock(m) && a != MutexUnlock(m) && !a.CondWait? && !a.RunNext?
    ensures m in Perform(s, a).0.mutexes && Perform(s, a).0.mutexes[m] == s.mutexes[m]
  {
    if !OnMutex(a) {
      ElsewhereKeeps(s, a);
    }
  }

  lemma InterruptMutexes(s: State, h: HandleId)
    requires CanRun(s) && h in s.handles
    ensures DoInterrupt(s, h).0.mutexes == s.mutexes && DoInterrupt(s, h).0.rmutexes == s.rmutexes
  {
    assert HandleWellFormed(s, h);
    if s.handles[h].fiber.Some? {
      var t := s.handles[h].fiber.value;
      assert DataWellFormed(s, s.fibers[t]);
      InterrupterMutexes(SetData(s, t, s.fibers[t].(interrupted := true)), s.fibers[t].interrupter);
    }
  }

  lemma InterrupterMutexes(s: State, i: Interrupter)
    requires InterrupterWellFormed(s, i)
    ensures CallInterrupter(s, i).mutexes == s.mutexes && CallInterrupter(s, i).rmutexes == s.rmutexes
  {}

  lemma MutexCallBalance(s: State, a: Action, m: MutexId)
    requires CanRun(s) && m in s.mutexes && MutexOk(s.mutexes[m])
    requires a == MutexLock(m) || a == MutexTryLock(m) || a == MutexUnlock(m)
    ensures m in Next(s, a).mutexes
    ensures Acquired(s, a, m) + HeldCount(s, m) == Dropped(s, a, m) + HeldCount(Next(s, a), m)
  {
    assert Step(s, a) == Perform(s, a);
  }

  lemma CondWaitBalance(s: State, c: CondId, n: MutexId, m: MutexId)
    requires CanRun(s) && m in s.mutexes && n in s.mutexes && c in s.conds
    ensures var a := CondWait(c, n);
            && m in Next(s, a).mutexes
            && Acquired(s, a, m) + HeldCount(s, m) == Dropped(s, a, m) + HeldCount(Next(s, a), m)
  {
    assert Step(s, CondWait(c, n)) == DoCondWait(s, c, n);
  }

  lemma MutexOtherBalance(s: State, a: Action, m: MutexId)
    requires WellFormed(s) && m in s.mutexes
    requires !Enabled(s, a) || (a != MutexLock(m) && a != MutexTryLock(m) && a != MutexUnlock(m) && !a.CondWait?)
    ensures m in Next(s, a).mutexes
    ensures Acquired(s, a, m) + HeldCount(s, m) == Dropped(s, a, m) + HeldCount(Next(s, a), m)
  {
    if Enabled(s, a) && !a.RunNext? {
      MutexUnmentioned(s, a, m);
    }
  }

  lemma LocksInOrder(s: State)
    requires Coherent(s)
    ensures WellFormed(s)
    ensures forall m :: m in s.mutexes ==> MutexOk(s.mutexes[m])
    ensures forall m :: m in s.rmutexes ==> RMutexOk(s.rmutexes[m])
  {
    CoherentWellFormed(s);
  }

  lemma MutexStepBalance(s: State, a: Action, m: MutexId)
    requires Coherent(s) && m in s.mutexes
    ensures m in Next(s, a).mutexes
    ensures Acquired(s, a, m) + HeldCount(s, m) == Dropped(s, a, m) + HeldCount(Next(s, a), m)
  {
    LocksInOrder(s);
    if !Enabled(s, a) {
      MutexOtherBalance(s, a, m);
    } else if a == MutexLock(m) || a == MutexTryLock(m) || a == MutexUnlock(m) {
      MutexCallBalance(s, a, m);
    } else if a.CondWait? {
      CondWaitBalance(s, a.cond, a.mutex, m);
    } else {
      MutexOtherBalance(s, a, m);
    }
  }

  /** Over any run, acquisitions minus releases is 1 while the mutex is locked and 0 otherwise. */
  lemma {:induction false} MutexBalance(s: State, run: seq<Action>, m: MutexId)
    requires Coherent(s) && m in s.mutexes && !s.mutexes[m].locked
    ensures m in Exec(s, run).mutexes
    ensures AcquiredIn(s, run, m) - DroppedIn(s, run, m) == if Exec(s, run).mutexes[m].locked then 1 else 0
  {
    MutexBalanceFrom(s, run, m);
  }

  lemma {:induction false} MutexBalanceFrom(s: State, run: seq<Action>, m: MutexId)
    requires Coherent(s) && m in s.mutexes
    ensures m in Exec(s, run).mutexes
    ensures AcquiredIn(s, run, m) + HeldCount(s, m) == DroppedIn(s, run, m) + HeldCount(Exec(s, run), m)
    decreases |run|
  {
    if run != [] {
      CoherentStep(s, run[0]);
      MutexStepBalance(s, run[0], m);
      MutexBalanceFrom(Next(s, run[0]), run[1..], m);
    }
  }

  lemma TakenMutex(s: State, m: MutexId)
    requires CanRun(s) && m in s.mutexes && s.mutexes[m].locked && s.mutexes[m].pending != []
    ensures Step(s, MutexTryLock(m)) == (s, Bool(false))
    ensures Step(s, MutexLock(m)).1 != Done
    ensures m in Next(s, MutexUnlock(m)).mutexes && Next(s, MutexUnlock(m)).mutexes[m].locked
  {
    assert Step(s, MutexTryLock(m)) == DoMutexTryLock(s, m);
    assert Step(s, MutexLock(m)) == DoMutexLock(s, m);
    assert Step(s, MutexUnlock(m)) == DoMutexUnlock(s, m);
  }

  lemma QueuedMutexIsLocked(s: State, m: MutexId)
    requires Coherent(s) && m in s.mutexes && s.mutexes[m].pending != []
    ensures WellFormed(s) && s.mutexes[m].locked
  {
    LocksInOrder(s);
  }

  /** While anybody is queued the mutex is taken, so neither lock nor try_lock can overtake the queue. */
  lemma MutexNoOvertaking(s: State, m: MutexId)
    requires Coherent(s) && s.control.Active? && m in s.mutexes && Queue(s, InMutex(m)) != []
    ensures s.mutexes[m].locked
    ensures Step(s, MutexTryLock(m)) == (s, Bool(false))
    ensures Step(s, MutexLock(m)).1 != Done
    ensures m in Next(s, MutexUnlock(m)).mutexes && Next(s, MutexUnlock(m)).mutexes[m].locked
  {
    QueuedMutexIsLocked(s, m);
    TakenMutex(s, m);
  }

  // ---------------------------------------------------------------- recursive mutex

  /** Levels of ownership that `f` has of `m`. */
  function Levels(s: State, m: RMutexId, f: Fiber): nat
    requires m in s.rmutexes
  {
    if s.rmutexes[m].owner == Some(f) then s.rmutexes[m].nlocked else 0
  }

  ghost function LevelsGained(s: State, a: Action, m: RMutexId, f: Fiber): nat {
    (if s.control.Active? && s.control.fiber == f &&
        ((a == RMutexLock(m) && Step(s, a).1 == Done) || (a == RMutexTryLock(m) && Step(s, a).1 == Bool(true)))
     then 1 else 0) + (if f in Woken(s, a, InRMutex(m)) then 1 else 0)
  }

  ghost function LevelsDropped(s: State, a: Action, m: RMutexId, f: Fiber): nat {
    if s.control.Active? && s.control.fiber == f && a == RMutexUnlock(m) && Step(s, a).1 == Done then 1 else 0
  }

  ghost function LevelsGainedIn(s: State, run: seq<Action>, m: RMutexId, f: Fiber): nat
    decreases |run|
  {
    if run == [] then 0 else LevelsGained(s, run[0], m, f) + LevelsGainedIn(Next(s, run[0]), run[1..], m, f)
  }

  ghost function LevelsDroppedIn(s: State, run: seq<Action>, m: RMutexId, f: Fiber): nat
    decreases |run|
  {
    if run == [] then 0 else LevelsDropped(s, run[0], m, f) + LevelsDroppedIn(Next(s, run[0]), run[1..], m, f)
  }

  /** Calls on other kinds of objects. */
  lemma MutexCallsKeep(s: State, a: Action)
    requires CanRun(s) && Enabled(s, a) && (a.NewMutex? || a.MutexLock? || a.MutexTryLock? || a.MutexUnlock?)
    ensures Perform(s, a).0.rmutexes == s.rmutexes
  {}

  lemma RMutexCallsKeep(s: State, a: Action)
    requires CanRun(s) && Enabled(s, a) && (a.NewRMutex? || a.RMutexLock? || a.RMutexTryLock? || a.RMutexUnlock?)
    ensures Perform(s, a).0.mutexes == s.mutexes
  {
    RMutexFrame(s, a);
  }

  lemma CondCallsKeep(s: State, a: Action)
    requires CanRun(s) && Enabled(s, a) && (a.NewCond? || a.CondWait? || a.NotifyOne? || a.NotifyAll?)
    ensures Perform(s, a).0.rmutexes == s.rmutexes && (!a.CondWait? ==> Perform(s, a).0.mutexes == s.mutexes)
  {}

  lemma FutureCallsKeep(s: State, a: Action)
    requires CanRun(s) && Enabled(s, a)
    requires a.NewPromise? || a.SetValue? || a.SetError? || a.PromiseGc? || a.FutureGet?
    ensures Perform(s, a).0.rmutexes == s.rmutexes && Perform(s, a).0.mutexes == s.mutexes
  {}

  predicate OnMutex(a: Action) {
    a.NewMutex? || a.MutexLock? || a.MutexTryLock? || a.MutexUnlock?
  }

  lemma ElsewhereKeeps(s: State, a: Action)
    requires CanRun(s) && Enabled(s, a) && !a.RunNext?
    ensures !OnRMutex(a) ==> Perform(s, a).0.rmutexes == s.rmutexes
    ensures !OnMutex(a) && !a.CondWait? ==> Perform(s, a).0.mutexes == s.mutexes
  {
    if OnFibers(a) {
      QuietStep(s, a);
    } else if a.Interrupt? {
      InterruptMutexes(s, a.handle);
    } else if OnMutex(a) {
      MutexCallsKeep(s, a);
    } else if OnRMutex(a) {
      RMutexCallsKeep(s, a);
    } else if a.NewCond? || a.CondWait? || a.NotifyOne? || a.NotifyAll? {
      CondCallsKeep(s, a);
    } else {
      FutureCallsKeep(s, a);
    }
  }

  lemma RMutexUnmentioned(s: State, a: Action, m: RMutexId)
    requires CanRun(s) && Enabled(s, a) && m in s.rmutexes
    requires a != RMutexLock(m) && a != RMutexTryLock(m) && a != RMutexUnlock(m) && !a.RunNext?
    ensures m in Perform(s, a).0.rmutexes && Perform(s, a).0.rmutexes[m] == s.rmutexes[m]
  {
    if OnRMutex(a) {
      RMutexFrame(s, a);
    } else {
      ElsewhereKeeps(s, a);
    }
  }

  lemma RMutexLockBalance(s: State, a: Action, m: RMutexId, f: Fiber)
    requires CanRun(s) && m in s.rmutexes && RMutexOk(s.rmutexes[m])
    requires a == RMutexLock(m) || a == RMutexTryLock(m)
    ensures m in Next(s, a).rmutexes
    ensures LevelsGained(s, a, m, f) + Levels(s, m, f) == LevelsDropped(s, a, m, f) + Levels(Next(s, a), m, f)
  {
    assert Step(s, a) == Perform(s, a);
  }

  lemma RMutexUnlockWakes(s: State, m: RMutexId)
    requires CanRun(s) && m in s.rmutexes && RMutexOk(s.rmutexes[m])
    ensures var d, r := s.rmutexes[m], DoRMutexUnlock(s, m);
            && Step(s, RMutexUnlock(m)) == r
            && Woken(s, RMutexUnlock(m), InRMutex(m))
               == if r.1 == Done && d.nlocked == 1 && d.pending != [] then [d.pending[0]] else []
  {
    assert Step(s, RMutexUnlock(m)) == DoRMutexUnlock(s, m);
    StrandKeeps(s, DoRMutexUnlock(s, m).0.strand);
  }

  lemma RMutexUnlockBalance(s: State, m: RMutexId, f: Fiber)
    requires CanRun(s) && m in s.rmutexes && RMutexOk(s.rmutexes[m])
    ensures var a := RMutexUnlock(m);
            && m in Next(s, a).rmutexes
            && LevelsGained(s, a, m, f) + Levels(s, m, f) == LevelsDropped(s, a, m, f) + Levels(Next(s, a), m, f)
  {
    RMutexUnlockWakes(s, m);
    var me, d := s.control.fiber, s.rmutexes[m];
    if d.owner == Some(me) && d.nlocked == 1 && d.pending != [] {
      assert d.pending[0] != me;
    }
  }

  lemma RMutexOtherBalance(s: State, a: Action, m: RMutexId, f: Fiber)
    requires WellFormed(s) && m in s.rmutexes
    requires !Enabled(s, a) || (a != RMutexLock(m) && a != RMutexTryLock(m) && a != RMutexUnlock(m))
    ensures m in Next(s, a).rmutexes
    ensures LevelsGained(s, a, m, f) + Levels(s, m, f) == LevelsDropped(s, a, m, f) + Levels(Next(s, a), m, f)
  {
    if Enabled(s, a) && !a.RunNext? {
      RMutexUnmentioned(s, a, m);
    }
  }

  lemma RMutexStepBalance(s: State, a: Action, m: RMutexId, f: Fiber)
    requires Coherent(s) && m in s.rmutexes
    ensures m in Next(s, a).rmutexes
    ensures LevelsGained(s, a, m, f) + Levels(s, m, f) == LevelsDropped(s, a, m, f) + Levels(Next(s, a), m, f)
  {
    LocksInOrder(s);
    if !Enabled(s, a) {
      RMutexOtherBalance(s, a, m, f);
    } else if a == RMutexLock(m) || a == RMutexTryLock(m) {
      RMutexLockBalance(s, a, m, f);
    } else if a == RMutexUnlock(m) {
      RMutexUnlockBalance(s, m, f);
    } else {
      RMutexOtherBalance(s, a, m, f);
    }
  }

  /** For every fiber, levels gained minus levels dropped is what the mutex records for it. */
  lemma {:induction false} RMutexBalance(s: State, run: seq<Action>, m: RMutexId, f: Fiber)
    requires Coherent(s) && m in s.rmutexes
    ensures m in Exec(s, run).rmutexes
    ensures LevelsGainedIn(s, run, m, f) + Levels(s, m, f) == LevelsDroppedIn(s, run, m, f) + Levels(Exec(s, run), m, f)
    decreases |run|
  {
    if run != [] {
      CoherentStep(s, run[0]);
      RMutexStepBalance(s, run[0], m, f);
      RMutexBalance(Next(s, run[0]), run[1..], m, f);
    }
  }

  /** The owner, the level and the queue of a recursive mutex fit together in every reachable state. */
  lemma RMutexReachable(run: seq<Action>, m: RMutexId)
    requires m in Exec(Init(), run).rmutexes
    ensures var d := Exec(Init(), run).rmutexes[m];
            && (d.owner == None <==> d.nlocked == 0)
            && (d.owner == None ==> d.pending == [])
            && (d.owner.Some? ==> d.owner.value !in d.pending)
            && d.nlocked <= SIZE_MAX
            && Distinct(d.pending)
  {
    ReachableCoherent(run);
    var s := Exec(Init(), run);
    var w :| Inv(s, w);
    assert RMutexOk(s.rmutexes[m]);
    Members(s, w, InRMutex(m));
  }

  lemma HandedOff(s: State, m: RMutexId)
    requires CanRun(s) && m in s.rmutexes && s.rmutexes[m].pending != []
    requires s.rmutexes[m].owner == Some(s.control.fiber) && s.rmutexes[m].nlocked == 1
    ensures var s', next := Next(s, RMutexUnlock(m)), s.rmutexes[m].pending[0];
            && s' == DoRMutexUnlock(s, m).0 && m in s'.rmutexes && s'.control == s.control
            && s'.rmutexes[m].owner == Some(next) && s'.rmutexes[m].nlocked == 1
            && s'.strand == s.strand + [Resume(next, NoArgs, true)]
  {
    assert Step(s, RMutexUnlock(m)) == DoRMutexUnlock(s, m);
  }

  lemma TryLockTaken(s: State, m: RMutexId)
    requires CanRun(s) && m in s.rmutexes && s.rmutexes[m].owner.Some? && s.rmutexes[m].owner.value != s.control.fiber
    ensures Step(s, RMutexTryLock(m)) == (s, Bool(false))
  {
    assert Step(s, RMutexTryLock(m)) == DoRMutexTryLock(s, m);
  }

  /** Ownership reaches the head of the queue before that fiber runs: no try_lock slips in between. */
  lemma RMutexHandOff(s: State, m: RMutexId)
    requires Coherent(s) && s.control.Active? && m in s.rmutexes && s.rmutexes[m].pending != []
    requires s.rmutexes[m].owner == Some(s.control.fiber) && s.rmutexes[m].nlocked == 1
    ensures var s' := Next(s, RMutexUnlock(m));
            && m in s'.rmutexes && s'.rmutexes[m].owner == Some(s.rmutexes[m].pending[0])
            && s'.rmutexes[m].nlocked == 1
            && s'.strand == s.strand + [Resume(s.rmutexes[m].pending[0], NoArgs, true)]
            && Step(s', RMutexTryLock(m)) == (s', Bool(false))
  {
    CoherentWellFormed(s);
    HandedOff(s, m);
    OwnerNotQueued(s, m);
    CoherentStep(s, RMutexUnlock(m));
    CoherentWellFormed(Next(s, RMutexUnlock(m)));
    TryLockTaken(Next(s, RMutexUnlock(m)), m);
  }

  lemma OwnerNotQueued(s: State, m: RMutexId)
    requires Coherent(s) && m in s.rmutexes && s.rmutexes[m].owner.Some?
    ensures s.rmutexes[m].owner.value !in s.rmutexes[m].pending
  {
    LocksInOrder(s);
  }
}
