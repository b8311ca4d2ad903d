/** Interrupting a fiber keeps the invariant, whatever the fiber is doing. */
module PreservationInterrupt {
  import opened Wrappers
  import opened Sequences
  import opened Runtime
  import opened Placement
  import opened Invariant
  import opened Preservation

  /** `t` has been marked as interrupted and its interrupter slot is empty. */
  ghost predicate Marked(s: State, s': State, t: Fiber) {
    && t in s.fibers && s'.fibers.Keys == s.fibers.Keys
    && s'.fibers[t].interrupted && s'.fibers[t].interrupter == NoInterrupter
    && s'.fibers[t].interruptionDisabled == s.fibers[t].interruptionDisabled
    && s'.fibers[t].status == s.fibers[t].status
    && s'.fibers[t].joiner == s.fibers[t].joiner
    && s'.fibers[t].userHandle == s.fibers[t].userHandle
  }

  function Mark(d: FiberData): FiberData {
    d.(interrupted := true, interrupter := NoInterrupter)
  }

  /** Only the slot and the flag change: nothing to wake. */
  lemma MarkedInPlace(s: State, w: Places, t: Fiber)
    requires Inv(s, w) && t in w
    requires !Interruptible(w[t]) || s.fibers[t].interruptionDisabled > 0
    ensures Inv(SetData(s, t, Mark(s.fibers[t])), w)
  {
    assert InterruptOk(s, w, t);
    DataChanged(s, Mark(s.fibers[t]), w, t);
  }

  /** `t` is taken out of a wait list and posted. */
  lemma MarkedAndPosted(s: State, s': State, w: Places, t: Fiber, from: Place, args: Args) returns (w': Places)
    requires Inv(s, w) && Marked(s, s', t)
    requires t in w && w[t] == from && Interruptible(from)
    requires s'.strand == s.strand + [Resume(t, args, false)]
    requires s'.conds.Keys == s.conds.Keys && s'.promises.Keys == s.promises.Keys
    requires forall f :: f in s.fibers ==> s'.fibers[f].status == s.fibers[f].status
    requires forall f :: f in s.fibers && f != t ==>
               && s'.fibers[f].interrupter == s.fibers[f].interrupter
               && s'.fibers[f].interruptionDisabled == s.fibers[f].interruptionDisabled
               && s'.fibers[f].interrupted == s.fibers[f].interrupted
    requires Queue(s', from) == Erase(Queue(s, from), t)
    requires forall p: Place :: p != from && p != Posted ==> Queue(s', p) == Queue(s, p)
    requires JoinsOk(s') && LocksOk(s')
    ensures w' == w[t := Posted] && Inv(s', w')
  {
    TargetsAppend(s.strand, [Resume(t, args, false)]);
    WaiterPlace(s, w, from, t);
    w' := Move(s, s', w, t, from, Posted);
    forall r | r in s.strand ensures r.fiber != t { PostedElsewhere(s, w, r); }
    InterruptsFrame(s, s', w, w', {t});
  }

  /** The fiber leaves the condition variable's list and is posted. */
  ghost predicate CondUndone(s: State, s': State, t: Fiber, c: CondId) {
    && t in s.fibers && c in s.conds && t in s.conds[c]
    && s' == s.(
         fibers := s.fibers[t := Mark(s.fibers[t])],
         conds := s.conds[c := Erase(s.conds[c], t)],
         strand := s.strand + [Resume(t, Failure(Interrupted), false)])
  }

  lemma CondUndoneQueues(s: State, s': State, t: Fiber, c: CondId)
    requires CondUndone(s, s', t, c)
    ensures Queue(s', InCond(c)) == Erase(Queue(s, InCond(c)), t)
    ensures forall p: Place :: p != InCond(c) && p != Posted ==> Queue(s', p) == Queue(s, p)
  {}

  lemma CondUndoneKeeps(s: State, s': State, w: Places, t: Fiber, c: CondId) returns (w': Places)
    requires Inv(s, w) && t in w && w[t] == InCond(c) && CondUndone(s, s', t, c)
    ensures Inv(s', w')
  {
    JoinsFrame(s, s');
    CondUndoneQueues(s, s', t, c);
    w' := MarkedAndPosted(s, s', w, t, InCond(c), Failure(Interrupted));
  }

  lemma InterruptedCond(s: State, w: Places, t: Fiber, c: CondId) returns (w': Places)
    requires InStep(s, w) && t in w && w[t] == InCond(c) && s.fibers[t].interruptionDisabled == 0
    requires t in s.handles && s.handles[t].fiber == Some(t) && t != s.control.fiber
    ensures Inv(DoInterrupt(s, t).0, w')
  {
    assert InterruptOk(s, w, t);
    WaiterPlace(s, w, InCond(c), t);
    w' := CondUndoneKeeps(s, DoInterrupt(s, t).0, w, t, c);
  }

  /** The fiber leaves the future's waiters and is posted. */
  ghost predicate FutureUndone(s: State, s': State, t: Fiber, q: PromiseId) {
    && t in s.fibers && q in s.promises && t in s.promises[q].waiters
    && s' == s.(
         fibers := s.fibers[t := Mark(s.fibers[t])],
         promises := s.promises[q := s.promises[q].(waiters := Erase(s.promises[q].waiters, t))],
         strand := s.strand + [Resume(t, Failure(Interrupted), false)])
  }

  lemma FutureUndoneQueues(s: State, s': State, t: Fiber, q: PromiseId)
    requires FutureUndone(s, s', t, q)
    ensures Queue(s', InFuture(q)) == Erase(Queue(s, InFuture(q)), t)
    ensures forall p: Place :: p != InFuture(q) && p != Posted ==> Queue(s', p) == Queue(s, p)
  {}

  lemma FutureUndoneKeeps(s: State, s': State, w: Places, t: Fiber, q: PromiseId) returns (w': Places)
    requires Inv(s, w) && t in w && w[t] == InFuture(q) && FutureUndone(s, s', t, q)
    ensures Inv(s', w')
  {
    JoinsFrame(s, s');
    FutureUndoneQueues(s, s', t, q);
    w' := MarkedAndPosted(s, s', w, t, InFuture(q), Failure(Interrupted));
  }

  lemma InterruptedFuture(s: State, w: Places, t: Fiber, q: PromiseId) returns (w': Places)
    requires InStep(s, w) && t in w && w[t] == InFuture(q) && s.fibers[t].interruptionDisabled == 0
    requires t in s.handles && s.handles[t].fiber == Some(t) && t != s.control.fiber
    ensures Inv(DoInterrupt(s, t).0, w')
  {
    assert InterruptOk(s, w, t);
    WaiterPlace(s, w, InFuture(q), t);
    w' := FutureUndoneKeeps(s, DoInterrupt(s, t).0, w, t, q);
  }

  /** The join is undone: the target has no joiner again, and its handle can be joined again. */
  ghost predicate JoinUndone(s: State, s': State, t: Fiber, u: Fiber) {
    && t != u && t in s.fibers && u in s.fibers && u in s.handles
    && s' == s.(
         fibers := s.fibers
           [u := s.fibers[u].(joiner := NoJoiner, userHandle := None)]
           [t := s.fibers[t].(interrupted := true, interrupter := NoInterrupter)],
         handles := s.handles[u := s.handles[u].(joinInProgress := false)],
         strand := s.strand + [Resume(t, JoinInterrupted, false)])
  }

  lemma JoinUndoneHandles(s: State, s': State, t: Fiber, u: Fiber)
    requires JoinsOk(s) && JoinUndone(s, s', t, u)
    requires s.handles[u].fiber == Some(u) && s.fibers[u].status.Running?
    ensures JoinsOk(s')
  {
    forall k | k in s'.handles ensures HandleOk(s', k) {
      assert HandleOk(s, k);
    }
    forall v | v in s'.fibers ensures OwnerOk(s', v) {
      assert OwnerOk(s, v);
    }
  }

  lemma JoinUndoneQueues(s: State, s': State, t: Fiber, u: Fiber)
    requires JoinUndone(s, s', t, u)
    ensures Queue(s', InJoin(u)) == []
    ensures forall p: Place :: p != InJoin(u) && p != Posted ==> Queue(s', p) == Queue(s, p)
  {}

  lemma JoinUndoneKeeps(s: State, s': State, w: Places, t: Fiber, u: Fiber) returns (w': Places)
    requires Inv(s, w) && t in w && w[t] == InJoin(u) && JoinUndone(s, s', t, u)
    ensures Inv(s', w')
  {
    JoinTarget(s, w, t, u);
    JoinUndoneHandles(s, s', t, u);
    JoinUndoneQueues(s, s', t, u);
    assert Queue(s, InJoin(u)) == [t];
    w' := MarkedAndPosted(s, s', w, t, InJoin(u), JoinInterrupted);
  }

  lemma InterruptedJoin(s: State, w: Places, t: Fiber, u: Fiber) returns (w': Places)
    requires InStep(s, w) && t in w && w[t] == InJoin(u) && s.fibers[t].interruptionDisabled == 0
    requires t in s.handles && s.handles[t].fiber == Some(t) && t != s.control.fiber
    ensures Inv(DoInterrupt(s, t).0, w')
  {
    assert InterruptOk(s, w, t);
    JoinTarget(s, w, t, u);
    assert OwnerOk(s, u);
    w' := JoinUndoneKeeps(s, DoInterrupt(s, t).0, w, t, u);
  }

  /** An interrupter left over from a wait that has ended does nothing. */
  lemma InterruptedLate(s: State, w: Places, t: Fiber)
    requires InStep(s, w) && t in w && !Interruptible(w[t])
    requires t in s.handles && s.handles[t].fiber == Some(t) && t != s.control.fiber
    ensures Inv(DoInterrupt(s, t).0, w)
  {
    var s' := DoInterrupt(s, t).0;
    assert InterruptOk(s, w, t);
    var i := s.fibers[t].interrupter;
    if i.CondInterrupter? {
      WaiterPlace(s, w, InCond(i.cond), t);
    } else if i.FutureInterrupter? {
      WaiterPlace(s, w, InFuture(i.promise), t);
    }
    assert s' == SetData(s, t, Mark(s.fibers[t]));
    MarkedInPlace(s, w, t);
  }

  lemma InterruptedQuietly(s: State, w: Places, t: Fiber)
    requires InStep(s, w) && t in w && t in s.handles && s.handles[t].fiber == Some(t)
    requires t == s.control.fiber || s.fibers[t].interruptionDisabled > 0
    ensures Inv(DoInterrupt(s, t).0, w)
  {
    RunningPlace(s, w);
    assert InterruptOk(s, w, t);
    assert DoInterrupt(s, t).0 == SetData(s, t, Mark(s.fibers[t]));
    MarkedInPlace(s, w, t);
  }

  lemma InterruptCalled(s: State, w: Places, h: HandleId) returns (w': Places)
    requires InStep(s, w) && h in s.handles
    ensures Inv(DoInterrupt(s, h).0, w')
  {
    w' := w;
    assert HandleOk(s, h);
    if s.handles[h].fiber.Some? {
      assert InterruptOk(s, w, h);
      RunningPlace(s, w);
      if h == s.control.fiber || s.fibers[h].interruptionDisabled > 0 {
        InterruptedQuietly(s, w, h);
      } else {
        match w[h]
        case InCond(c) => w' := InterruptedCond(s, w, h, c);
        case InFuture(p) => w' := InterruptedFuture(s, w, h, p);
        case InJoin(t) => w' := InterruptedJoin(s, w, h, t);
        case _ => InterruptedLate(s, w, h);
      }
    }
  }
}
