/** What each call answers, told from the calls before it, and that a refused call changes nothing. */
module Refusals {
  import opened Wrappers
  import opened Sequences
  import opened SizeT
  import opened Runtime
  import opened Placement
  import opened Invariant
  import opened Runs
  import opened Traces
  import opened Guarantees
  import opened Promises

  ghost predicate Refused(r: Reply) {
    r.Raise? || r.Throw? || r == Bool(false) || r.NotEnabled?
  }

  lemma FiberCallRefused(s: State, a: Action)
    requires CanRun(s) && Enabled(s, a) && OnFibers(a) && Refused(Perform(s, a).1)
    ensures Perform(s, a).0 == s
  {}

  lemma LockCallRefused(s: State, a: Action)
    requires CanRun(s) && Enabled(s, a) && (OnMutex(a) || OnRMutex(a)) && Refused(Perform(s, a).1)
    ensures Perform(s, a).0 == s
  {}

  lemma OtherCallRefused(s: State, a: Action)
    requires WellFormed(s) && Enabled(s, a) && !OnFibers(a) && !OnMutex(a) && !OnRMutex(a) && !a.Interrupt?
    requires Refused(Perform(s, a).1)
    ensures Perform(s, a).0 == s
  {}

  lemma InterruptIsDone(s: State, h: HandleId)
    requires CanRun(s) && h in s.handles
    ensures DoInterrupt(s, h).1 == Done
  {}

  /** A call that raises an error, or says that it could not, leaves everything as it was. */
  lemma RefusedChangesNothing(s: State, a: Action)
    requires Refused(Step(s, a).1)
    ensures Next(s, a) == s
  {
    if WellFormed(s) && Enabled(s, a) {
      if a.Interrupt? {
        InterruptIsDone(s, a.handle);
      } else if OnFibers(a) {
        FiberCallRefused(s, a);
      } else if OnMutex(a) || OnRMutex(a) {
        LockCallRefused(s, a);
      } else {
        OtherCallRefused(s, a);
      }
    }
  }

  // ---------------------------------------------------------------- locks

  /** The running fiber has not forbidden suspension. */
  ghost predicate MayBlock(s: State) {
    s.control.Active? && s.control.fiber in s.fibers && s.fibers[s.control.fiber].suspensionDisallowed == 0
  }

  lemma MutexCalls(s: State, m: MutexId)
    requires CanRun(s) && m in s.mutexes
    ensures Step(s, MutexTryLock(m)).1 == Bool(HeldCount(s, m) == 0)
    ensures Step(s, MutexUnlock(m)).1 == if HeldCount(s, m) == 0 then Raise(EPERM) else Done
    ensures MayBlock(s) ==> Step(s, MutexLock(m)).1 == if HeldCount(s, m) == 0 then Done else Suspended
  {
    assert Step(s, MutexTryLock(m)) == DoMutexTryLock(s, m);
    assert Step(s, MutexUnlock(m)) == DoMutexUnlock(s, m);
    assert Step(s, MutexLock(m)) == DoMutexLock(s, m);
  }

  lemma CondWaitCalls(s: State, c: CondId, m: MutexId)
    requires CanRun(s) && m in s.mutexes && c in s.conds
    ensures HeldCount(s, m) == 0 ==> Step(s, CondWait(c, m)).1 == Raise(EPERM)
    ensures HeldCount(s, m) == 1 && FreeToSuspend(Me(s)) ==> Step(s, CondWait(c, m)).1 == Suspended
  {
    assert Step(s, CondWait(c, m)) == DoCondWait(s, c, m);
  }

  /**
    What the calls on a mutex answer after any run: all goes by whether it has been acquired once more often than
    released. Whoever calls, an unlock of a mutex that is free is refused, and so is a wait on it.
   */
  lemma MutexAnswers(s: State, run: seq<Action>, m: MutexId, c: CondId)
    requires Coherent(s) && m in s.mutexes && !s.mutexes[m].locked && Exec(s, run).control.Active?
    ensures var e, held := Exec(s, run), AcquiredIn(s, run, m) - DroppedIn(s, run, m);
            && 0 <= held <= 1
            && Step(e, MutexTryLock(m)).1 == Bool(held == 0)
            && Step(e, MutexUnlock(m)).1 == (if held == 0 then Raise(EPERM) else Done)
            && (MayBlock(e) ==> Step(e, MutexLock(m)).1 == if held == 0 then Done else Suspended)
            && (c in e.conds && held == 0 ==> Step(e, CondWait(c, m)).1 == Raise(EPERM))
            && (c in e.conds && held == 1 && e.control.fiber in e.fibers && FreeToSuspend(e.fibers[e.control.fiber]) ==>
                  Step(e, CondWait(c, m)).1 == Suspended)
  {
    var e := Exec(s, run);
    CoherentRun(s, run);
    CoherentWellFormed(e);
    MutexBalance(s, run, m);
    MutexCalls(e, m);
    if c in e.conds {
      CondWaitCalls(e, c, m);
    }
  }

  /** Somebody else owns it. */
  ghost predicate TakenFrom(s: State, m: RMutexId, f: Fiber)
    requires m in s.rmutexes
  {
    exists g :: g != f && Levels(s, m, g) > 0
  }

  lemma RMutexCalls(s: State, m: RMutexId)
    requires CanRun(s) && m in s.rmutexes && RMutexOk(s.rmutexes[m])
    ensures var f := s.control.fiber;
            var mine := Levels(s, m, f);
            && Step(s, RMutexUnlock(m)).1 == (if mine == 0 then Raise(EPERM) else Done)
            && Step(s, RMutexTryLock(m)).1 == (if mine == 0xFFFF_FFFF_FFFF_FFFF then Raise(EOVERFLOW) else Bool(!TakenFrom(s, m, f)))
            && (MayBlock(s) ==>
                  Step(s, RMutexLock(m)).1 ==
                    if mine == 0xFFFF_FFFF_FFFF_FFFF then Raise(EOVERFLOW) else if TakenFrom(s, m, f) then Suspended else Done)
  {
    OwnerTakes(s, m, s.control.fiber);
    assert Step(s, RMutexUnlock(m)) == DoRMutexUnlock(s, m);
    assert Step(s, RMutexTryLock(m)) == DoRMutexTryLock(s, m);
    assert Step(s, RMutexLock(m)) == DoRMutexLock(s, m);
  }

  lemma OwnerTakes(s: State, m: RMutexId, f: Fiber)
    requires m in s.rmutexes && RMutexOk(s.rmutexes[m])
    ensures TakenFrom(s, m, f) <==> s.rmutexes[m].owner.Some? && s.rmutexes[m].owner.value != f
  {
    if s.rmutexes[m].owner.Some? {
      assert Levels(s, m, s.rmutexes[m].owner.value) > 0;
    }
  }

  /** How many levels of `m` a fiber has by the calls of the run. */
  ghost function LevelsBy(s: State, run: seq<Action>, m: RMutexId, f: Fiber): int {
    LevelsGainedIn(s, run, m, f) - LevelsDroppedIn(s, run, m, f)
  }

  /** The same for a recursive mutex, by the levels that the caller and the others have. */
  lemma RMutexAnswers(s: State, run: seq<Action>, m: RMutexId)
    requires Coherent(s) && m in s.rmutexes && s.rmutexes[m].owner.None? && Exec(s, run).control.Active?
    ensures var e := Exec(s, run);
            var mine := LevelsBy(s, run, m, e.control.fiber);
            var taken := exists g :: g != e.control.fiber && LevelsBy(s, run, m, g) > 0;
            && 0 <= mine <= 0xFFFF_FFFF_FFFF_FFFF
            && Step(e, RMutexUnlock(m)).1 == (if mine == 0 then Raise(EPERM) else Done)
            && Step(e, RMutexTryLock(m)).1 == (if mine == 0xFFFF_FFFF_FFFF_FFFF then Raise(EOVERFLOW) else Bool(!taken))
            && (MayBlock(e) ==>
                  Step(e, RMutexLock(m)).1 ==
                    if mine == 0xFFFF_FFFF_FFFF_FFFF then Raise(EOVERFLOW) else if taken then Suspended else Done)
  {
    var e := Exec(s, run);
    CoherentRun(s, run);
    CoherentWellFormed(e);
    forall g
      ensures m in e.rmutexes && LevelsBy(s, run, m, g) == Levels(e, m, g)
    {
      RMutexBalance(s, run, m, g);
    }
    RMutexBalance(s, run, m, e.control.fiber);
    LocksInOrder(e);
    RMutexCalls(e, m);
    assert TakenFrom(e, m, e.control.fiber) <==> exists g :: g != e.control.fiber && LevelsBy(s, run, m, g) > 0;
  }

  lemma NewMutexIsFree(s: State, m: MutexId)
    requires Coherent(s) && Enabled(s, NewMutex(m))
    ensures var s' := Next(s, NewMutex(m)); m in s'.mutexes && Step(s', MutexTryLock(m)).1 == Bool(true)
  {
    var s' := Next(s, NewMutex(m));
    CoherentStep(s, NewMutex(m));
    CoherentWellFormed(s');
    MutexCalls(s', m);
  }

  lemma NewRMutexIsFree(s: State, m: RMutexId)
    requires Coherent(s) && Enabled(s, NewRMutex(m))
    ensures var s' := Next(s, NewRMutex(m)); m in s'.rmutexes && Step(s', RMutexTryLock(m)).1 == Bool(true)
  {
    var s' := Next(s, NewRMutex(m));
    CoherentStep(s, NewRMutex(m));
    CoherentWellFormed(s');
    LocksInOrder(s');
    RMutexCalls(s', m);
  }

  lemma NewCondIsEmpty(s: State, c: CondId)
    requires Coherent(s) && Enabled(s, NewCond(c))
    ensures var s' := Next(s, NewCond(c)); c in s'.conds && Next(s', NotifyAll(c)).strand == s.strand
  {
    CoherentStep(s, NewCond(c));
    CoherentWellFormed(s);
    NobodyNotified(Next(s, NewCond(c)), c);
  }

  lemma NobodyNotified(s: State, c: CondId)
    requires c in s.conds && s.conds[c] == []
    ensures Next(s, NotifyAll(c)).strand == s.strand
  {
    if CanRun(s) {
      assert Step(s, NotifyAll(c)) == DoNotifyAll(s, c);
    }
  }

  lemma NewPromiseIsOpen(s: State, p: PromiseId, v: Value)
    requires Coherent(s) && Enabled(s, NewPromise(p))
    ensures var s' := Next(s, NewPromise(p)); p in s'.promises && Step(s', SetValue(p, v)).1 == Done
  {
    var s' := Next(s, NewPromise(p));
    CoherentStep(s, NewPromise(p));
    CoherentWellFormed(s');
    SetCalls(s', p, v);
  }

  /** A new object is free, empty, or still to be set. */
  lemma NewObjects(s: State, m: MutexId, n: RMutexId, c: CondId, p: PromiseId, v: Value)
    requires Coherent(s)
    ensures Enabled(s, NewMutex(m)) ==> Step(Next(s, NewMutex(m)), MutexTryLock(m)).1 == Bool(true)
    ensures Enabled(s, NewRMutex(n)) ==> Step(Next(s, NewRMutex(n)), RMutexTryLock(n)).1 == Bool(true)
    ensures Enabled(s, NewCond(c)) ==> Next(Next(s, NewCond(c)), NotifyAll(c)).strand == s.strand
    ensures Enabled(s, NewPromise(p)) ==> Step(Next(s, NewPromise(p)), SetValue(p, v)).1 == Done
  {
    if Enabled(s, NewMutex(m)) {
      NewMutexIsFree(s, m);
    }
    if Enabled(s, NewRMutex(n)) {
      NewRMutexIsFree(s, n);
    }
    if Enabled(s, NewCond(c)) {
      NewCondIsEmpty(s, c);
    }
    if Enabled(s, NewPromise(p)) {
      NewPromiseIsOpen(s, p, v);
    }
  }

  // ---------------------------------------------------------------- handles

  /** The handle still has its fiber, and nobody is joining it. */
  ghost predicate Joinable(s: State, h: HandleId) {
    h in s.handles && s.handles[h].fiber.Some? && Queue(s, InJoin(s.handles[h].fiber.value)) == []
  }

  ghost predicate GivenUp(s: State, h: HandleId) {
    h in s.handles && s.handles[h].fiber.None?
  }

  lemma HandleCalls(s: State, h: HandleId)
    requires CanRun(s) && h in s.handles && HandleOk(s, h)
    ensures Joinable(s, h) <==> s.handles[h].fiber.Some? && !s.handles[h].joinInProgress
  {}

  lemma JoinCalls(s: State, h: HandleId)
    requires CanRun(s) && h in s.handles && HandleOk(s, h)
    ensures Step(s, Detach(h)).1 == if Joinable(s, h) then Done else Raise(EINVAL)
    ensures Step(s, GcHandle(h)).1 == Done && (!Joinable(s, h) ==> Next(s, GcHandle(h)) == s)
    ensures Joinable(s, h) ==> GivenUp(Next(s, Detach(h)), h) && GivenUp(Next(s, GcHandle(h)), h)
    ensures FreeToSuspend(Me(s)) ==>
              var r := Step(s, Join(h)).1;
              if !Joinable(s, h) then r == Raise(EINVAL)
              else if s.handles[h].fiber == Some(s.control.fiber) then r == Raise(EDEADLK)
              else if s.fibers[s.handles[h].fiber.value].status.Running? then r == Suspended
              else r.JoinReply?
  {
    HandleCalls(s, h);
    assert Step(s, Detach(h)) == DoDetach(s, h);
    assert Step(s, GcHandle(h)) == DoGcHandle(s, h);
    assert Step(s, Join(h)) == DoJoin(s, h);
  }

  /**
    A handle can be joined or detached as long as it has its fiber and no fiber waits in the join slot; detaching
    it, or collecting it, gives the fiber up. A fiber cannot join itself; a join of a fiber that still runs suspends.
   */
  lemma JoinAnswers(run: seq<Action>, h: HandleId)
    requires Exec(Init(), run).control.Active? && h in Exec(Init(), run).handles
    ensures var s := Exec(Init(), run);
            && Step(s, Detach(h)).1 == (if Joinable(s, h) then Done else Raise(EINVAL))
            && Step(s, GcHandle(h)).1 == Done && (!Joinable(s, h) ==> Next(s, GcHandle(h)) == s)
            && (Joinable(s, h) ==> GivenUp(Next(s, Detach(h)), h) && GivenUp(Next(s, GcHandle(h)), h))
            && (s.control.fiber in s.fibers && FreeToSuspend(s.fibers[s.control.fiber]) ==>
                  var r := Step(s, Join(h)).1;
                  if !Joinable(s, h) then r == Raise(EINVAL)
                  else if s.handles[h].fiber == Some(s.control.fiber) then r == Raise(EDEADLK)
                  else
                    && s.handles[h].fiber.value in s.fibers
                    && if s.fibers[s.handles[h].fiber.value].status.Running? then r == Suspended else r.JoinReply?)
  {
    var s := Exec(Init(), run);
    ReachableCoherent(run);
    CoherentWellFormed(s);
    var w :| Inv(s, w);
    assert HandleOk(s, h);
    JoinCalls(s, h);
  }

  // ---------------------------------------------------------------- promises

  lemma SetCalls(s: State, p: PromiseId, v: Value)
    requires CanRun(s) && p in s.promises && s.promises[p].promiseAlive
    ensures Step(s, SetValue(p, v)).1 == if s.promises[p].state == Empty then Done else Raise(PromiseAlreadySatisfied)
    ensures Step(s, SetError(p, v)).1 ==
              if v == Nil then Raise(EINVAL) else if s.promises[p].state == Empty then Done else Raise(PromiseAlreadySatisfied)
  {
    assert Step(s, SetValue(p, v)) == DoSetValue(s, p, v);
    assert Step(s, SetError(p, v)) == DoSetError(s, p, v);
  }

  /** A promise can be set exactly if no call of the run has set it. Nil is no error, set or not. */
  lemma SetAnswers(s: State, run: seq<Action>, p: PromiseId, v: Value)
    requires Coherent(s) && p in s.promises && s.promises[p].state == Empty && Exec(s, run).control.Active?
    requires p in Exec(s, run).promises && Exec(s, run).promises[p].promiseAlive
    ensures var e, wasSet := Exec(s, run), SettlesIn(s, run, p) != [];
            && Step(e, SetValue(p, v)).1 == (if wasSet then Raise(PromiseAlreadySatisfied) else Done)
            && Step(e, SetError(p, v)).1 ==
                 (if v == Nil then Raise(EINVAL) else if wasSet then Raise(PromiseAlreadySatisfied) else Done)
  {
    var e := Exec(s, run);
    CoherentRun(s, run);
    CoherentWellFormed(e);
    StateFollows(s, run, p);
    SettlesAreSets(s, run, p);
    if SettlesIn(s, run, p) != [] {
      assert SettlesIn(s, run, p)[0] in SettlesIn(s, run, p);
    }
    assert (e.promises[p].state == Empty) <==> SettlesIn(s, run, p) == [];
    SetCalls(e, p, v);
  }
}
