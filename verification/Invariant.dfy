/** The invariant of the fiber runtime, kept by every step. */
module Invariant {
  import opened Wrappers
  import opened SizeT
  import opened Runtime
  import opened Placement

  /** A handle that still has its fiber, and the fiber's own idea of who joins it. */
  ghost predicate HandleOk(s: State, h: HandleId) {
    h in s.handles && (s.handles[h].fiber.Some? ==>
      && s.handles[h].fiber.value == h
      && h in s.fibers
      && !s.fibers[h].joiner.Detached?
      && (s.handles[h].joinInProgress <==> s.fibers[h].joiner.Joined?)
      && (s.fibers[h].joiner.Joined? ==>
            s.fibers[h].status.Running? && s.fibers[h].userHandle == Some(h)))
  }

  /** A fiber that is not detached and can still be joined, or is being joined, has its handle. */
  ghost predicate OwnerOk(s: State, t: Fiber) {
    t in s.fibers ==>
      && (s.fibers[t].joiner.Detached? ==> s.fibers[t].status.Running?)
      && s.fibers[t].joiner != Joined(t)
      && (s.fibers[t].joiner.NoJoiner? || (s.fibers[t].joiner.Joined? && s.fibers[t].status.Running?) ==>
            t in s.handles && s.handles[t].fiber == Some(t))
  }

  ghost predicate JoinsOk(s: State) {
    && (forall h {:trigger HandleOk(s, h)} :: h in s.handles ==> HandleOk(s, h))
    && (forall t {:trigger OwnerOk(s, t)} :: t in s.fibers ==> OwnerOk(s, t))
    && (forall h :: h in s.handles ==> h < s.nextFiber)
    && (forall t :: t in s.fibers ==> t < s.nextFiber)
  }

  /** What the interrupter slot of `f` may hold, given where `f` is. */
  ghost predicate InterrupterOk(s: State, w: Places, f: Fiber)
    requires f in w && f in s.fibers
  {
    var d := s.fibers[f];
    match w[f]
    case InCond(c) => d.interrupter == if d.interruptionDisabled > 0 then NoInterrupter else CondInterrupter(c, f)
    case InFuture(p) => d.interrupter == if d.interruptionDisabled > 0 then NoInterrupter else FutureInterrupter(p, f)
    case InJoin(t) => d.interrupter == if d.interruptionDisabled > 0 then NoInterrupter else JoinInterrupter(t, f, t)
    case Posted =>   // perhaps a leftover of the wait that has just ended
      && (d.interrupter.CondInterrupter? ==> d.interrupter.waiter == f && d.interrupter.cond in s.conds)
      && (d.interrupter.FutureInterrupter? ==> d.interrupter.waiter == f && d.interrupter.promise in s.promises)
      && !d.interrupter.JoinInterrupter?
    case _ => d.interrupter == NoInterrupter
  }

  ghost predicate Interruptible(p: Place) {
    p.InCond? || p.InFuture? || p.InJoin?
  }

  ghost predicate InterruptOk(s: State, w: Places, f: Fiber)
    requires f in w && f in s.fibers
  {
    var d := s.fibers[f];
    && InterrupterOk(s, w, f)
    && (d.interrupter != NoInterrupter ==> d.interruptionDisabled == 0)
    && (d.interrupted && d.interruptionDisabled == 0 ==> !Interruptible(w[f]))
  }

  /** A closure that skips clearing the interrupter has nothing to clear. */
  ghost predicate ResumeOk(s: State, r: Resume) {
    r.skipClearInterrupter && r.fiber in s.fibers ==> s.fibers[r.fiber].interrupter == NoInterrupter
  }

  ghost predicate InterruptsOk(s: State, w: Places)
    requires w.Keys == s.fibers.Keys
  {
    && (forall f {:trigger InterruptOk(s, w, f)} :: f in w ==> InterruptOk(s, w, f))
    && (forall r {:trigger ResumeOk(s, r)} :: r in s.strand ==> ResumeOk(s, r))
  }

  ghost predicate MutexOk(d: MutexData) {
    d.pending != [] ==> d.locked
  }

  ghost predicate RMutexOk(d: RMutexData) {
    && (d.owner.None? <==> d.nlocked == 0)
    && d.nlocked <= SIZE_MAX
    && (d.owner.None? ==> d.pending == [])
    && (d.owner.Some? ==> d.owner.value !in d.pending)
  }

  ghost predicate PromiseOk(d: PromiseData) {
    && (d.state != Empty ==> d.waiters == [])
    && (!d.promiseAlive ==> d.state == Broken)
  }

  ghost predicate LocksOk(s: State) {
    && (forall m :: m in s.mutexes ==> MutexOk(s.mutexes[m]))
    && (forall m :: m in s.rmutexes ==> RMutexOk(s.rmutexes[m]))
    && (forall p :: p in s.promises ==> PromiseOk(s.promises[p]))
  }

  ghost predicate Inv(s: State, w: Places) {
    && Placed(s, w)
    && JoinsOk(s)
    && InterruptsOk(s, w)
    && LocksOk(s)
  }

  ghost predicate Coherent(s: State) {
    exists w :: Inv(s, w)
  }

  // ---------------------------------------------------------------- consequences used by the steps

  lemma JoinerPlace(s: State, w: Places, t: Fiber)
    requires Inv(s, w) && t in s.fibers && s.fibers[t].status.Running? && s.fibers[t].joiner.Joined?
    ensures s.fibers[t].joiner.fiber in w && w[s.fibers[t].joiner.fiber] == InJoin(t)
  {
    Members(s, w, InJoin(t));
    assert s.fibers[t].joiner.fiber in Queue(s, InJoin(t));
  }

  lemma JoinTarget(s: State, w: Places, f: Fiber, t: Fiber)
    requires Inv(s, w) && f in w && w[f] == InJoin(t)
    ensures t in s.fibers && s.fibers[t].status.Running? && s.fibers[t].joiner == Joined(f)
    ensures t in s.handles && s.handles[t].fiber == Some(t) && s.handles[t].joinInProgress
  {
    Members(s, w, InJoin(t));
    assert f in Queue(s, InJoin(t));
    assert OwnerOk(s, t);
    assert HandleOk(s, t);
  }

  lemma WaiterPlace(s: State, w: Places, p: Place, f: Fiber)
    requires Placed(s, w) && p != AtEnd
    ensures f in Queue(s, p) <==> f in w && w[f] == p
  {
    Members(s, w, p);
  }

  lemma InterrupterTarget(s: State, w: Places, f: Fiber)
    requires Inv(s, w) && f in w
    ensures InterrupterWellFormed(s, s.fibers[f].interrupter)
  {
    assert InterruptOk(s, w, f);
    match w[f]
    case InCond(c) => WaiterPlace(s, w, InCond(c), f);
    case InFuture(p) => WaiterPlace(s, w, InFuture(p), f);
    case InJoin(t) => JoinTarget(s, w, f, t);
    case _ =>
  }

  /** Every name the next step follows leads to an object. */
  lemma InvWellFormed(s: State, w: Places)
    requires Inv(s, w)
    ensures WellFormed(s)
  {
    if s.control.Active? {
      RunningPlace(s, w);
    }
    forall r | r in s.strand ensures ResumeWellFormed(s, r) {
      var i :| 0 <= i < |s.strand| && s.strand[i] == r;
      PostedPlace(s, w, i);
    }
    forall h | h in s.handles ensures HandleWellFormed(s, h) {
      assert HandleOk(s, h);
    }
    forall f | f in s.fibers ensures DataWellFormed(s, s.fibers[f]) {
      InterrupterTarget(s, w, f);
      if s.fibers[f].status.Running? && s.fibers[f].joiner.Joined? {
        JoinerPlace(s, w, f);
        assert OwnerOk(s, f);
        assert HandleOk(s, f);
      }
    }
  }

  // ---------------------------------------------------------------- frames

  lemma JoinsFrame(s: State, s': State)
    requires JoinsOk(s)
    requires s'.handles == s.handles && s'.nextFiber == s.nextFiber && s'.fibers.Keys == s.fibers.Keys
    requires forall f :: f in s.fibers ==>
               && s'.fibers[f].joiner == s.fibers[f].joiner
               && s'.fibers[f].status == s.fibers[f].status
               && s'.fibers[f].userHandle == s.fibers[f].userHandle
    ensures JoinsOk(s')
  {
    forall h | h in s'.handles ensures HandleOk(s', h) {
      assert HandleOk(s, h);
    }
    forall t | t in s'.fibers ensures OwnerOk(s', t) {
      assert OwnerOk(s, t);
    }
  }

  /** Fiber `f` is where it was, with the same interruption state. */
  ghost predicate Untouched(s: State, s': State, w: Places, w': Places, f: Fiber) {
    && f in w && f in w' && w'[f] == w[f]
    && f in s.fibers && f in s'.fibers
    && s'.fibers[f].interrupter == s.fibers[f].interrupter
    && s'.fibers[f].interruptionDisabled == s.fibers[f].interruptionDisabled
    && s'.fibers[f].interrupted == s.fibers[f].interrupted
  }

  /** Only `touched` changed place or interruption state; `f` stands for the closures just posted. */
  lemma InterruptsFrame(s: State, s': State, w: Places, w': Places, touched: set<Fiber>)
    requires w.Keys == s.fibers.Keys && w'.Keys == s'.fibers.Keys
    requires InterruptsOk(s, w)
    requires s.conds.Keys <= s'.conds.Keys && s.promises.Keys <= s'.promises.Keys
    requires forall f {:trigger Untouched(s, s', w, w', f)} :: f in w' && f !in touched ==> Untouched(s, s', w, w', f)
    requires forall f {:trigger InterruptOk(s', w', f)} :: f in w' && f in touched ==> InterruptOk(s', w', f)
    requires forall r {:trigger ResumeOk(s', r)} :: r in s'.strand ==> ResumeOk(s', r) || (r in s.strand && r.fiber !in touched)
    ensures InterruptsOk(s', w')
  {
    forall f | f in w' ensures InterruptOk(s', w', f) {
      if f !in touched {
        assert Untouched(s, s', w, w', f);
        assert InterruptOk(s, w, f);
      }
    }
    forall r | r in s'.strand ensures ResumeOk(s', r) {
      if r in s.strand && r.fiber !in touched {
        assert ResumeOk(s, r);
        if r.fiber in s'.fibers {
          assert Untouched(s, s', w, w', r.fiber);
        }
      }
    }
  }

  lemma InitCoherent()
    ensures Inv(Init(), map[0 := OnCpu])
  {
    var s, w := Init(), map[0 := OnCpu];
    forall p: Place | p != AtEnd ensures Holds(Queue(s, p), w, p) {}
  }
}
