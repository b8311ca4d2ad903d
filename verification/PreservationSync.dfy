/** The synchronization primitives keep the invariant. */
module PreservationSync {
  import opened Wrappers
  import opened Sequences
  import opened Runtime
  import opened Placement
  import opened Invariant
  import opened Preservation

  /** No fiber or handle changed; condition variables and promises only appear. */
  ghost predicate SameFibers(s: State, s': State) {
    && s'.fibers == s.fibers && s'.handles == s.handles && s'.nextFiber == s.nextFiber
    && s.conds.Keys <= s'.conds.Keys && s.promises.Keys <= s'.promises.Keys
  }

  /** The queues keep their members: a lock is taken or dropped, an object is made. */
  lemma Relabeled(s: State, s': State, w: Places)
    requires Inv(s, w) && SameFibers(s, s') && s'.strand == s.strand && LocksOk(s')
    requires forall p: Place :: Queue(s', p) == Queue(s, p)
    ensures Inv(s', w)
  {
    Stay(s, s', w);
    JoinsFrame(s, s');
    forall r | r in s'.strand ensures ResumeOk(s', r) {
      assert ResumeOk(s, r);
    }
    InterruptsFrame(s, s', w, w, {});
  }

  /** The running fiber queues up for a lock. */
  lemma QueuedUp(s: State, s': State, w: Places, to: Place) returns (w': Places)
    requires InStep(s, w) && SameFibers(s, s') && s'.strand == s.strand && LocksOk(s')
    requires to.InMutex? || to.InRMutex?
    requires s'.control == Idle
    requires Queue(s', to) == Queue(s, to) + [s.control.fiber]
    requires forall p: Place :: p != OnCpu && p != to ==> Queue(s', p) == Queue(s, p)
    ensures Inv(s', w')
  {
    var me := s.control.fiber;
    RunningPlace(s, w);
    assert InterruptOk(s, w, me);
    w' := Suspends(s, s', w, to);
    JoinsFrame(s, s');
    forall r | r in s'.strand ensures ResumeOk(s', r) {
      assert ResumeOk(s, r);
    }
    InterruptsFrame(s, s', w, w', {me});
  }

  /** The head of a queue is posted. Only lock queues may skip clearing the interrupter. */
  lemma HeadPosted(s: State, s': State, w: Places, from: Place, r: Resume) returns (w': Places)
    requires Inv(s, w) && SameFibers(s, s') && LocksOk(s')
    requires Queue(s, from) != [] && r.fiber == Queue(s, from)[0]
    requires from.InMutex? || from.InRMutex? || from.InCond?
    requires r.skipClearInterrupter ==> !from.InCond?
    requires s'.strand == s.strand + [r]
    requires Queue(s', from) == Queue(s, from)[1..]
    requires forall p: Place :: p != from && p != Posted ==> Queue(s', p) == Queue(s, p)
    ensures Inv(s', w')
  {
    var f := r.fiber;
    WaiterPlace(s, w, from, f);
    assert InterruptOk(s, w, f);
    EraseHead(Queue(s, from));
    TargetsAppend(s.strand, [r]);
    w' := Move(s, s', w, f, from, Posted);
    JoinsFrame(s, s');
    forall x | x in s'.strand ensures ResumeOk(s', x) {
      if x in s.strand { assert ResumeOk(s, x); }
    }
    InterruptsFrame(s, s', w, w', {f});
  }

  /** Every waiter of a condition variable or future is posted. */
  lemma AllPosted(s: State, s': State, w: Places, from: Place, args: Args) returns (w': Places)
    requires Inv(s, w) && SameFibers(s, s') && LocksOk(s')
    requires from.InCond? || from.InFuture?
    requires s'.strand == PostAll(s, Queue(s, from), args).strand
    requires Queue(s', from) == []
    requires forall p: Place :: p != from && p != Posted ==> Queue(s', p) == Queue(s, p)
    ensures Inv(s', w')
  {
    var q := Queue(s, from);
    var tail := seq(|q|, i requires 0 <= i < |q| => Resume(q[i], args, false));
    TargetsAppend(s.strand, tail);
    assert Targets(tail) == q;
    w' := MoveAll(s, s', w, from);
    JoinsFrame(s, s');
    forall x | x in s'.strand ensures ResumeOk(s', x) {
      if x in s.strand { assert ResumeOk(s, x); } else { assert x in tail; }
    }
    AllPostedInterrupts(s, s', w, w', from);
  }

  lemma AllPostedInterrupts(s: State, s': State, w: Places, w': Places, from: Place)
    requires Inv(s, w) && SameFibers(s, s')
    requires from.InCond? || from.InFuture?
    requires w' == map f | f in w :: if w[f] == from then Posted else w[f]
    requires forall r {:trigger ResumeOk(s', r)} :: r in s'.strand ==> ResumeOk(s', r)
    ensures InterruptsOk(s', w')
  {
    var touched := set f | f in w && w[f] == from;
    forall f | f in w' && f in touched ensures InterruptOk(s', w', f) {
      assert InterruptOk(s, w, f);
      WaiterPlace(s, w, from, f);
    }
    InterruptsFrame(s, s', w, w', touched);
  }

  // ---------------------------------------------------------------- mutex

  lemma MutexQueues(s: State, s': State, m: MutexId)
    requires m in s'.mutexes && s'.mutexes == s.mutexes[m := s'.mutexes[m]]
    requires s'.fibers == s.fibers && s'.rmutexes == s.rmutexes
    requires s'.conds == s.conds && s'.promises == s.promises
    ensures forall p: Place :: p != OnCpu && p != Posted && p != InMutex(m) ==> Queue(s', p) == Queue(s, p)
    ensures s'.control == s.control ==> Queue(s', OnCpu) == Queue(s, OnCpu)
    ensures s'.strand == s.strand ==> Queue(s', Posted) == Queue(s, Posted)
  {}

  lemma MutexLocks(s: State, s': State, m: MutexId)
    requires LocksOk(s) && m in s'.mutexes && s'.mutexes == s.mutexes[m := s'.mutexes[m]] && MutexOk(s'.mutexes[m])
    requires s'.rmutexes == s.rmutexes && s'.promises == s.promises
    ensures LocksOk(s')
  {}

  /** The mutex flag changes and its queue does not. */
  lemma MutexRelabeled(s: State, w: Places, m: MutexId, d: MutexData)
    requires Inv(s, w) && MutexOk(d)
    requires d.pending == if m in s.mutexes then s.mutexes[m].pending else []
    ensures Inv(s.(mutexes := s.mutexes[m := d]), w)
  {
    var s' := s.(mutexes := s.mutexes[m := d]);
    MutexQueues(s, s', m);
    MutexLocks(s, s', m);
    assert Queue(s', InMutex(m)) == Queue(s, InMutex(m));
    Relabeled(s, s', w);
  }

  lemma MutexLockCalled(s: State, w: Places, m: MutexId) returns (w': Places)
    requires InStep(s, w) && m in s.mutexes
    ensures Inv(DoMutexLock(s, m).0, w')
  {
    w' := w;
    var s' := DoMutexLock(s, m).0;
    assert MutexOk(s.mutexes[m]);
    if s' == s {
    } else if s.mutexes[m].locked {
      MutexQueues(s, s', m);
      MutexLocks(s, s', m);
      w' := QueuedUp(s, s', w, InMutex(m));
    } else {
      MutexRelabeled(s, w, m, s.mutexes[m].(locked := true));
    }
  }

  lemma MutexTryLockCalled(s: State, w: Places, m: MutexId)
    requires InStep(s, w) && m in s.mutexes
    ensures Inv(DoMutexTryLock(s, m).0, w)
  {
    MutexRelabeled(s, w, m, s.mutexes[m].(locked := true));
  }

  lemma HandedOn(s: State, w: Places, m: MutexId) returns (w': Places)
    requires Inv(s, w) && m in s.mutexes
    ensures Inv(HandOn(s, m), w')
  {
    var s' := HandOn(s, m);
    assert MutexOk(s.mutexes[m]);
    if s.mutexes[m].pending == [] {
      w' := w;
      MutexRelabeled(s, w, m, s.mutexes[m].(locked := false));
    } else {
      MutexQueues(s, s', m);
      MutexLocks(s, s', m);
      w' := HeadPosted(s, s', w, InMutex(m), Resume(s.mutexes[m].pending[0], NoArgs, true));
    }
  }

  // ---------------------------------------------------------------- recursive mutex

  lemma RMutexQueues(s: State, s': State, m: RMutexId)
    requires m in s'.rmutexes && s'.rmutexes == s.rmutexes[m := s'.rmutexes[m]]
    requires s'.fibers == s.fibers && s'.mutexes == s.mutexes
    requires s'.conds == s.conds && s'.promises == s.promises
    ensures forall p: Place :: p != OnCpu && p != Posted && p != InRMutex(m) ==> Queue(s', p) == Queue(s, p)
    ensures s'.control == s.control ==> Queue(s', OnCpu) == Queue(s, OnCpu)
    ensures s'.strand == s.strand ==> Queue(s', Posted) == Queue(s, Posted)
  {}

  lemma RMutexLocks(s: State, s': State, m: RMutexId)
    requires LocksOk(s) && m in s'.rmutexes && s'.rmutexes == s.rmutexes[m := s'.rmutexes[m]]
    requires RMutexOk(s'.rmutexes[m])
    requires s'.mutexes == s.mutexes && s'.promises == s.promises
    ensures LocksOk(s')
  {}

  lemma RMutexRelabeled(s: State, w: Places, m: RMutexId, d: RMutexData)
    requires Inv(s, w) && RMutexOk(d)
    requires d.pending == if m in s.rmutexes then s.rmutexes[m].pending else []
    ensures Inv(s.(rmutexes := s.rmutexes[m := d]), w)
  {
    var s' := s.(rmutexes := s.rmutexes[m := d]);
    RMutexQueues(s, s', m);
    RMutexLocks(s, s', m);
    assert Queue(s', InRMutex(m)) == Queue(s, InRMutex(m));
    Relabeled(s, s', w);
  }

  lemma RMutexLockCalled(s: State, w: Places, m: RMutexId) returns (w': Places)
    requires InStep(s, w) && m in s.rmutexes
    ensures Inv(DoRMutexLock(s, m).0, w')
  {
    w' := w;
    var r := DoRMutexLock(s, m);
    var d := s.rmutexes[m];
    var me := s.control.fiber;
    assert RMutexOk(d);
    if r.1 == Suspended {
      RMutexQueues(s, r.0, m);
      RMutexLocks(s, r.0, m);
      w' := QueuedUp(s, r.0, w, InRMutex(m));
    } else if r.1 == Done {
      RMutexRelabeled(s, w, m, if d.owner.Some? then d.(nlocked := d.nlocked + 1) else d.(owner := Some(me), nlocked := 1));
    }
  }

  lemma RMutexTryLockCalled(s: State, w: Places, m: RMutexId)
    requires InStep(s, w) && m in s.rmutexes
    ensures Inv(DoRMutexTryLock(s, m).0, w)
  {
    var r := DoRMutexTryLock(s, m);
    var d := s.rmutexes[m];
    assert RMutexOk(d);
    if r.1 == Bool(true) {
      RMutexRelabeled(s, w, m,
        if d.owner.Some? then d.(nlocked := d.nlocked + 1) else d.(owner := Some(s.control.fiber), nlocked := 1));
    }
  }

  lemma RMutexUnlockCalled(s: State, w: Places, m: RMutexId) returns (w': Places)
    requires InStep(s, w) && m in s.rmutexes
    ensures Inv(DoRMutexUnlock(s, m).0, w')
  {
    w' := w;
    var s' := DoRMutexUnlock(s, m).0;
    var d := s.rmutexes[m];
    assert RMutexOk(d);
    if d.owner != Some(s.control.fiber) {
    } else if d.nlocked > 1 {
      RMutexRelabeled(s, w, m, d.(nlocked := d.nlocked - 1));
    } else if d.pending == [] {
      RMutexRelabeled(s, w, m, d.(nlocked := 0, owner := None));
    } else {
      Members(s, w, InRMutex(m));
      RMutexQueues(s, s', m);
      RMutexLocks(s, s', m);
      w' := HeadPosted(s, s', w, InRMutex(m), Resume(d.pending[0], NoArgs, true));
    }
  }

  // ---------------------------------------------------------------- condition variable

  /** The running fiber parks in an interruptible wait list. */
  lemma ParkedWith(s: State, s': State, w: Places, to: Place, i: Interrupter) returns (w': Places)
    requires InStep(s, w) && SuspendError(Me(s)).None?
    requires s'.fibers == s.fibers[s.control.fiber := SetInterrupter(s.fibers[s.control.fiber], i)]
    requires s'.handles == s.handles && s'.nextFiber == s.nextFiber && s'.strand == s.strand && s'.control == Idle
    requires s'.conds.Keys == s.conds.Keys && s'.promises.Keys == s.promises.Keys && LocksOk(s')
    requires (to.InCond? && i == CondInterrupter(to.cond, s.control.fiber))
          || (to.InFuture? && i == FutureInterrupter(to.promise, s.control.fiber))
    requires Queue(s', to) == Queue(s, to) + [s.control.fiber]
    requires forall p: Place :: p != OnCpu && p != to ==> Queue(s', p) == Queue(s, p)
    ensures Inv(s', w')
  {
    w' := Suspends(s, s', w, to);
    JoinsFrame(s, s');
    ParkedInterrupts(s, s', w, w', to, i);
  }

  lemma ParkedInterrupts(s: State, s': State, w: Places, w': Places, to: Place, i: Interrupter)
    requires InStep(s, w) && SuspendError(Me(s)).None? && w' == w[s.control.fiber := to]
    requires s'.fibers == s.fibers[s.control.fiber := SetInterrupter(s.fibers[s.control.fiber], i)]
    requires s'.strand == s.strand
    requires s'.conds.Keys == s.conds.Keys && s'.promises.Keys == s.promises.Keys
    requires (to.InCond? && i == CondInterrupter(to.cond, s.control.fiber))
          || (to.InFuture? && i == FutureInterrupter(to.promise, s.control.fiber))
    ensures w'.Keys == s'.fibers.Keys && InterruptsOk(s', w')
  {
    var me := s.control.fiber;
    RunningPlace(s, w);
    assert InterruptOk(s, w, me);
    forall r | r in s.strand ensures r.fiber != me { PostedElsewhere(s, w, r); }
    InterruptsFrame(s, s', w, w', {me});
  }

  lemma CondWaitQueues(s: State, s': State, c: CondId)
    requires CanRun(s) && c in s.conds
    requires s' == Park(SetData(s, s.control.fiber,
      SetInterrupter(Me(s), CondInterrupter(c, s.control.fiber))).(conds := s.conds[c := s.conds[c] + [s.control.fiber]]))
    ensures Queue(s', InCond(c)) == Queue(s, InCond(c)) + [s.control.fiber]
    ensures forall p: Place :: p != OnCpu && p != InCond(c) ==> Queue(s', p) == Queue(s, p)
  {}

  lemma CondWaitCalled(s: State, w: Places, c: CondId, m: MutexId) returns (w': Places)
    requires InStep(s, w) && c in s.conds && m in s.mutexes
    ensures Inv(DoCondWait(s, c, m).0, w')
  {
    w' := w;
    if s.mutexes[m].locked && SuspendError(Me(s)).None? {
      var me := s.control.fiber;
      var i := CondInterrupter(c, me);
      var s1 := Park(SetData(s, me, SetInterrupter(Me(s), i)).(conds := s.conds[c := s.conds[c] + [me]]));
      CondWaitQueues(s, s1, c);
      var w1 := ParkedWith(s, s1, w, InCond(c), i);
      w' := HandedOn(s1, w1, m);
      assert HandOn(s1, m) == DoCondWait(s, c, m).0;
    }
  }

  lemma CondQueues(s: State, s': State, c: CondId)
    requires c in s'.conds && s'.conds == s.conds[c := s'.conds[c]]
    requires s'.fibers == s.fibers && s'.mutexes == s.mutexes && s'.rmutexes == s.rmutexes
    requires s'.promises == s.promises && s'.control == s.control
    ensures forall p: Place :: p != Posted && p != InCond(c) ==> Queue(s', p) == Queue(s, p)
  {}

  lemma NotifyOneCalled(s: State, w: Places, c: CondId) returns (w': Places)
    requires InStep(s, w) && c in s.conds
    ensures Inv(DoNotifyOne(s, c).0, w')
  {
    w' := w;
    if s.conds[c] != [] {
      var s' := DoNotifyOne(s, c).0;
      CondQueues(s, s', c);
      w' := HeadPosted(s, s', w, InCond(c), Resume(s.conds[c][0], NoArgs, false));
    }
  }

  lemma NotifyAllCalled(s: State, w: Places, c: CondId) returns (w': Places)
    requires InStep(s, w) && c in s.conds
    ensures Inv(DoNotifyAll(s, c).0, w')
  {
    var s' := DoNotifyAll(s, c).0;
    CondQueues(s, s', c);
    w' := AllPosted(s, s', w, InCond(c), NoArgs);
  }

  lemma CondMade(s: State, w: Places, c: CondId)
    requires InStep(s, w) && c !in s.conds
    ensures Inv(s.(conds := s.conds[c := []]), w)
  {
    var s' := s.(conds := s.conds[c := []]);
    CondQueues(s, s', c);
    Relabeled(s, s', w);
  }

  // ---------------------------------------------------------------- future

  lemma PromiseQueues(s: State, s': State, p: PromiseId)
    requires p in s'.promises && s'.promises == s.promises[p := s'.promises[p]]
    requires s'.fibers == s.fibers && s'.mutexes == s.mutexes && s'.rmutexes == s.rmutexes
    requires s'.conds == s.conds && s'.control == s.control
    ensures forall q: Place :: q != Posted && q != InFuture(p) ==> Queue(s', q) == Queue(s, q)
  {}

  lemma PromiseLocks(s: State, s': State, p: PromiseId)
    requires LocksOk(s) && p in s'.promises && s'.promises == s.promises[p := s'.promises[p]]
    requires PromiseOk(s'.promises[p]) && s'.mutexes == s.mutexes && s'.rmutexes == s.rmutexes
    ensures LocksOk(s')
  {}

  /** The promise reaches a final state and all its waiters are posted. */
  lemma PromiseSettled(s: State, w: Places, p: PromiseId, d: PromiseData, args: Args) returns (w': Places)
    requires Inv(s, w) && p in s.promises && PromiseOk(d) && d.waiters == []
    ensures Inv(PostAll(s, s.promises[p].waiters, args).(promises := s.promises[p := d]), w')
  {
    var s' := PostAll(s, s.promises[p].waiters, args).(promises := s.promises[p := d]);
    PromiseQueues(s, s', p);
    PromiseLocks(s, s', p);
    w' := AllPosted(s, s', w, InFuture(p), args);
  }

  lemma SetValueCalled(s: State, w: Places, p: PromiseId, v: Value) returns (w': Places)
    requires InStep(s, w) && p in s.promises
    ensures Inv(DoSetValue(s, p, v).0, w')
  {
    w' := w;
    var d := s.promises[p];
    assert PromiseOk(d);
    if d.state == Empty {
      w' := PromiseSettled(s, w, p, d.(state := ValueReady(v), waiters := []), Ready(v));
    }
  }

  lemma SetErrorCalled(s: State, w: Places, p: PromiseId, v: Value) returns (w': Places)
    requires InStep(s, w) && p in s.promises
    ensures Inv(DoSetError(s, p, v).0, w')
  {
    w' := w;
    var d := s.promises[p];
    assert PromiseOk(d);
    if d.state == Empty && v != Nil {
      w' := PromiseSettled(s, w, p, d.(state := ErrorReady(v), waiters := []), Failed(v));
    }
  }

  lemma PromiseGcCalled(s: State, w: Places, p: PromiseId) returns (w': Places)
    requires InStep(s, w) && p in s.promises
    ensures Inv(DoPromiseGc(s, p).0, w')
  {
    w' := PromiseSettled(s, w, p, PromiseData(Broken, [], false), Failure(BrokenPromise));
  }

  lemma FutureGetQueues(s: State, s': State, p: PromiseId)
    requires CanRun(s) && p in s.promises && p in s'.promises
    requires s' == Park(SetData(s, s.control.fiber,
      SetInterrupter(Me(s), FutureInterrupter(p, s.control.fiber))).(promises := s.promises[p := s'.promises[p]]))
    ensures forall q: Place :: q != OnCpu && q != InFuture(p) ==> Queue(s', q) == Queue(s, q)
  {}

  lemma FutureGetCalled(s: State, w: Places, p: PromiseId) returns (w': Places)
    requires InStep(s, w) && p in s.promises
    ensures Inv(DoFutureGet(s, p).0, w')
  {
    w' := w;
    var r := DoFutureGet(s, p);
    assert PromiseOk(s.promises[p]);
    if r.1 == Suspended {
      FutureGetQueues(s, r.0, p);
      PromiseLocks(s, r.0, p);
      w' := ParkedWith(s, r.0, w, InFuture(p), FutureInterrupter(p, s.control.fiber));
    }
  }

  lemma PromiseMade(s: State, w: Places, p: PromiseId)
    requires InStep(s, w) && p !in s.promises
    ensures Inv(s.(promises := s.promises[p := PromiseData(Empty, [], true)]), w)
  {
    var s' := s.(promises := s.promises[p := PromiseData(Empty, [], true)]);
    PromiseQueues(s, s', p);
    PromiseLocks(s, s', p);
    Relabeled(s, s', w);
  }
}
