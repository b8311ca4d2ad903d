/** Each operation keeps the invariant. */
module Preservation {
  import opened Wrappers
  import opened Sequences
  import opened Runtime
  import opened Placement
  import opened Invariant

  ghost predicate InStep(s: State, w: Places) {
    Inv(s, w) && CanRun(s)
  }

  // ---------------------------------------------------------------- scheduling

  /** Control leaves the running fiber, which goes to the end of a queue. */
  lemma Suspends(s: State, s': State, w: Places, to: Place) returns (w': Places)
    requires InStep(s, w) && to != OnCpu && to != AtEnd
    requires Moves(s, s', s.control.fiber, OnCpu, to)
    ensures w' == w[s.control.fiber := to] && Placed(s', w')
  {
    w' := Move(s, s', w, s.control.fiber, OnCpu, to);
  }

  lemma Spawned(s: State, w: Places) returns (w': Places)
    requires InStep(s, w)
    ensures Inv(DoSpawn(s).0, w')
  {
    var s' := DoSpawn(s).0;
    var f := s.nextFiber;
    assert f !in s.fibers && f !in s.handles;
    w' := w[f := Posted];
    TargetsAppend(s.strand, [Resume(f, NoArgs, true)]);
    forall p: Place | p != AtEnd ensures Holds(Queue(s', p), w', p) {
      Members(s, w, p);
      if p == Posted {
        HoldsAppend(Queue(s, p), w, p, f);
        assert Queue(s', p) == Queue(s, p) + [f];
      } else {
        assert Queue(s', p) == Queue(s, p);
      }
    }
    forall h | h in s'.handles ensures HandleOk(s', h) {
      if h != f { assert HandleOk(s, h); }
    }
    forall t | t in s'.fibers ensures OwnerOk(s', t) {
      if t != f { assert OwnerOk(s, t); }
    }
    assert WellFormed(s);
    InterruptsFrame(s, s', w, w', {f});
  }

  lemma Yielded(s: State, w: Places) returns (w': Places)
    requires InStep(s, w)
    ensures Inv(DoYield(s).0, w')
  {
    w' := w;
    if SuspendError(Me(s)).None? {
      w' := Reposted(s, Park(Post(s, Resume(s.control.fiber, NoArgs, true))), w);
    }
  }

  lemma Reposted(s: State, s': State, w: Places) returns (w': Places)
    requires Inv(s, w) && s.control.Active?
    requires s' == s.(control := Idle, strand := s.strand + [Resume(s.control.fiber, NoArgs, true)])
    ensures Inv(s', w')
  {
    var me := s.control.fiber;
    RunningPlace(s, w);
    assert InterruptOk(s, w, me);
    TargetsAppend(s.strand, [Resume(me, NoArgs, true)]);
    w' := Move(s, s', w, me, OnCpu, Posted);
    JoinsFrame(s, s');
    InterruptsFrame(s, s', w, w', {me});
  }

  lemma RanNextQueues(s: State, w: Places)
    requires Placed(s, w) && WellFormed(s) && s.control.Idle? && s.strand != []
    ensures Placed(DoRunNext(s).0, w[s.strand[0].fiber := OnCpu])
  {
    var s' := DoRunNext(s).0;
    var f := s.strand[0].fiber;
    assert ResumeWellFormed(s, s.strand[0]);
    TargetsTail(s.strand);
    EraseHead(Queue(s, Posted));
    forall p: Place | p != Posted && p != OnCpu ensures Queue(s', p) == Queue(s, p) {}
    var w' := Move(s, s', w, f, Posted, OnCpu);
  }

  lemma RanNext(s: State, w: Places) returns (w': Places)
    requires Inv(s, w) && WellFormed(s) && s.control.Idle? && s.strand != []
    ensures Inv(DoRunNext(s).0, w')
  {
    var s' := DoRunNext(s).0;
    var f := s.strand[0].fiber;
    w' := w[f := OnCpu];
    PostedPlace(s, w, 0);
    RanNextQueues(s, w);
    JoinsFrame(s, s');
    RanNextInterrupts(s, w);
  }

  lemma RanNextInterrupts(s: State, w: Places)
    requires Inv(s, w) && WellFormed(s) && s.control.Idle? && s.strand != []
    ensures w[s.strand[0].fiber := OnCpu].Keys == DoRunNext(s).0.fibers.Keys
    ensures InterruptsOk(DoRunNext(s).0, w[s.strand[0].fiber := OnCpu])
  {
    var s' := DoRunNext(s).0;
    var f := s.strand[0].fiber;
    var w' := w[f := OnCpu];
    PostedPlace(s, w, 0);
    assert InterruptOk(s, w, f);
    assert ResumeOk(s, s.strand[0]);
    assert s'.fibers[f].interrupter == NoInterrupter;
    forall r | r in s'.strand ensures ResumeOk(s', r) {
      assert ResumeOk(s, r);
    }
    InterruptsFrame(s, s', w, w', {f});
  }

  lemma DataQueues(s: State, f: Fiber, d: FiberData)
    requires f in s.fibers && d.joiner == s.fibers[f].joiner && d.status == s.fibers[f].status
    ensures forall p: Place :: Queue(SetData(s, f, d), p) == Queue(s, p)
  {}

  /** The data of a fiber changes, but neither who joins it nor where it is. */
  lemma DataChanged(s: State, d: FiberData, w: Places, f: Fiber)
    requires Inv(s, w) && f in s.fibers
    requires d.joiner == s.fibers[f].joiner && d.status == s.fibers[f].status
    requires d.userHandle == s.fibers[f].userHandle
    requires d.interrupter == s.fibers[f].interrupter || d.interrupter == NoInterrupter
    requires InterruptOk(SetData(s, f, d), w, f)
    ensures Inv(SetData(s, f, d), w)
  {
    var s' := SetData(s, f, d);
    DataQueues(s, f, d);
    Stay(s, s', w);
    JoinsFrame(s, s');
    DataInterrupts(s, d, w, f);
  }

  lemma DataInterrupts(s: State, d: FiberData, w: Places, f: Fiber)
    requires w.Keys == s.fibers.Keys && InterruptsOk(s, w) && f in s.fibers
    requires d.interrupter == s.fibers[f].interrupter || d.interrupter == NoInterrupter
    requires InterruptOk(SetData(s, f, d), w, f)
    ensures InterruptsOk(SetData(s, f, d), w)
  {
    var s' := SetData(s, f, d);
    forall r | r in s'.strand ensures ResumeOk(s', r) {
      assert ResumeOk(s, r);
    }
    InterruptsFrame(s, s', w, w, {f});
  }

  lemma DisabledInterruption(s: State, w: Places)
    requires InStep(s, w)
    ensures Inv(DoDisableInterruption(s).0, w)
  {
    RunningPlace(s, w);
    var f := s.control.fiber;
    assert InterruptOk(s, w, f);
    DataChanged(s, Me(s).(interruptionDisabled := Me(s).interruptionDisabled + 1), w, f);
  }

  lemma RestoredInterruption(s: State, w: Places)
    requires InStep(s, w)
    ensures Inv(DoRestoreInterruption(s).0, w)
  {
    RunningPlace(s, w);
    var f := s.control.fiber;
    assert InterruptOk(s, w, f);
    if Me(s).interruptionDisabled > 0 {
      DataChanged(s, Me(s).(interruptionDisabled := Me(s).interruptionDisabled - 1), w, f);
    }
  }

  lemma ForbadeSuspend(s: State, w: Places)
    requires InStep(s, w)
    ensures Inv(DoForbidSuspend(s).0, w)
  {
    RunningPlace(s, w);
    var f := s.control.fiber;
    assert InterruptOk(s, w, f);
    DataChanged(s, Me(s).(suspensionDisallowed := Me(s).suspensionDisallowed + 1), w, f);
  }

  lemma AllowedSuspend(s: State, w: Places)
    requires InStep(s, w)
    ensures Inv(DoAllowSuspend(s).0, w)
  {
    RunningPlace(s, w);
    var f := s.control.fiber;
    assert InterruptOk(s, w, f);
    if Me(s).suspensionDisallowed > 0 {
      DataChanged(s, Me(s).(suspensionDisallowed := Me(s).suspensionDisallowed - 1), w, f);
    }
  }

  // ---------------------------------------------------------------- joining

  lemma JoinedLive(s: State, w: Places, h: HandleId) returns (w': Places)
    requires InStep(s, w) && h in s.handles && DoJoin(s, h).1 == Suspended
    ensures Inv(DoJoin(s, h).0, w')
  {
    assert HandleOk(s, h);
    w' := w[s.control.fiber := InJoin(h)];
    JoinedLiveQueues(s, w, h);
    JoinedLiveHandles(s, w, h);
    JoinedLiveInterrupts(s, w, h);
  }

  lemma JoinedLiveQueues(s: State, w: Places, h: HandleId)
    requires InStep(s, w) && h in s.handles && DoJoin(s, h).1 == Suspended
    ensures Placed(DoJoin(s, h).0, w[s.control.fiber := InJoin(h)])
  {
    var s' := DoJoin(s, h).0;
    assert HandleOk(s, h);
    forall p: Place | p != OnCpu && p != InJoin(h) ensures Queue(s', p) == Queue(s, p) {}
    var w' := Suspends(s, s', w, InJoin(h));
  }

  lemma JoinedLiveHandles(s: State, w: Places, h: HandleId)
    requires InStep(s, w) && h in s.handles && DoJoin(s, h).1 == Suspended
    ensures JoinsOk(DoJoin(s, h).0)
  {
    var s' := DoJoin(s, h).0;
    assert HandleOk(s, h);
    forall k | k in s'.handles ensures HandleOk(s', k) {
      assert HandleOk(s, k);
    }
    forall t | t in s'.fibers ensures OwnerOk(s', t) {
      assert OwnerOk(s, t);
    }
  }

  lemma JoinedLiveInterrupts(s: State, w: Places, h: HandleId)
    requires InStep(s, w) && h in s.handles && DoJoin(s, h).1 == Suspended
    ensures w[s.control.fiber := InJoin(h)].Keys == DoJoin(s, h).0.fibers.Keys
    ensures InterruptsOk(DoJoin(s, h).0, w[s.control.fiber := InJoin(h)])
  {
    var me := s.control.fiber;
    var s' := DoJoin(s, h).0;
    RunningPlace(s, w);
    assert HandleOk(s, h) && InterruptOk(s, w, me);
    forall r | r in s.strand ensures r.fiber != me { PostedElsewhere(s, w, r); }
    InterruptsFrame(s, s', w, w[me := InJoin(h)], {me});
  }

  lemma PostedElsewhere(s: State, w: Places, r: Resume)
    requires Placed(s, w) && r in s.strand
    ensures r.fiber in w && w[r.fiber] == Posted
  {
    var i :| 0 <= i < |s.strand| && s.strand[i] == r;
    PostedPlace(s, w, i);
  }

  /** A finished fiber loses its handle and leaves the list. */
  lemma Reaped(s: State, s': State, w: Places, t: Fiber) returns (w': Places)
    requires Inv(s, w) && t in s.fibers && s.fibers[t].status.Finished?
    requires t in s.handles && s.handles[t].fiber == Some(t) && t in s'.handles
    requires s' == s.(fibers := s.fibers - {t}, handles := s.handles[t := s'.handles[t]])
    requires s'.handles[t].fiber == None
    ensures Inv(s', w')
  {
    assert HandleOk(s, t);
    assert w[t] == AtEnd;
    forall p: Place ensures Queue(s', p) == Queue(s, p) {}
    w' := Unlist(s, s', w, t);
    forall k | k in s'.handles ensures HandleOk(s', k) {
      assert HandleOk(s, k);
    }
    forall u | u in s'.fibers ensures OwnerOk(s', u) {
      assert OwnerOk(s, u);
    }
    InterruptsFrame(s, s', w, w', {});
  }

  lemma JoinCalled(s: State, w: Places, h: HandleId) returns (w': Places)
    requires InStep(s, w) && h in s.handles
    ensures Inv(DoJoin(s, h).0, w')
  {
    var r := DoJoin(s, h);
    w' := w;
    if r.1 == Suspended {
      w' := JoinedLive(s, w, h);
    } else if r.1.JoinReply? {
      assert HandleOk(s, h);
      w' := Reaped(s, r.0, w, h);
    }
  }

  lemma DetachedLive(s: State, w: Places, h: HandleId)
    requires InStep(s, w) && h in s.handles && s.handles[h].fiber == Some(h) && !s.handles[h].joinInProgress
    requires h in s.fibers && s.fibers[h].status.Running?
    ensures Inv(Release(s, h, h), w)
  {
    assert HandleOk(s, h);
    var s' := Release(s, h, h);
    forall p: Place ensures Queue(s', p) == Queue(s, p) {}
    Stay(s, s', w);
    DetachedLiveHandles(s, w, h);
    forall r | r in s'.strand ensures ResumeOk(s', r) {
      assert ResumeOk(s, r);
    }
    InterruptsFrame(s, s', w, w, {});
  }

  lemma DetachedLiveHandles(s: State, w: Places, h: HandleId)
    requires InStep(s, w) && h in s.handles && s.handles[h].fiber == Some(h) && !s.handles[h].joinInProgress
    requires h in s.fibers && s.fibers[h].status.Running?
    ensures JoinsOk(Release(s, h, h))
  {
    var s' := Release(s, h, h);
    forall k | k in s'.handles ensures HandleOk(s', k) {
      assert HandleOk(s, k);
    }
    forall u | u in s'.fibers ensures OwnerOk(s', u) {
      assert OwnerOk(s, u);
    }
  }

  lemma Released(s: State, w: Places, h: HandleId) returns (w': Places)
    requires InStep(s, w) && h in s.handles && s.handles[h].fiber == Some(h) && !s.handles[h].joinInProgress
    requires h in s.fibers
    ensures Inv(Release(s, h, h), w')
  {
    if s.fibers[h].status.Finished? {
      w' := Reaped(s, Release(s, h, h), w, h);
    } else {
      w' := w;
      DetachedLive(s, w, h);
    }
  }

  // ---------------------------------------------------------------- finishing

  lemma FinishedDetached(s: State, w: Places, o: Outcome) returns (w': Places)
    requires InStep(s, w) && Me(s).joiner.Detached?
    ensures Inv(DoFinish(s, o).0, w')
  {
    var me := s.control.fiber;
    var s' := DoFinish(s, o).0;
    RunningPlace(s, w);
    w' := w - {me};
    forall p: Place | p != AtEnd ensures Holds(Queue(s', p), w', p) {
      Members(s, w, p);
      if p != OnCpu { assert Queue(s', p) == Queue(s, p); }
    }
    forall k | k in s'.handles ensures HandleOk(s', k) {
      assert HandleOk(s, k);
    }
    forall u | u in s'.fibers ensures OwnerOk(s', u) {
      assert OwnerOk(s, u);
    }
    InterruptsFrame(s, s', w, w', {});
  }

  lemma FinishedUnjoined(s: State, w: Places, o: Outcome) returns (w': Places)
    requires InStep(s, w) && Me(s).joiner.NoJoiner?
    ensures Inv(DoFinish(s, o).0, w')
  {
    var me := s.control.fiber;
    var s' := DoFinish(s, o).0;
    RunningPlace(s, w);
    w' := w[me := AtEnd];
    forall p: Place | p != AtEnd ensures Holds(Queue(s', p), w', p) {
      Members(s, w, p);
      if p != OnCpu { assert Queue(s', p) == Queue(s, p); }
    }
    forall k | k in s'.handles ensures HandleOk(s', k) {
      assert HandleOk(s, k);
    }
    forall u | u in s'.fibers ensures OwnerOk(s', u) {
      assert OwnerOk(s, u);
    }
    assert InterruptOk(s, w, me);
    forall r | r in s.strand ensures r.fiber != me { PostedElsewhere(s, w, r); }
    InterruptsFrame(s, s', w, w', {me});
  }

  /** Fiber `me` finished, and its joiner `j` left the join slot for the processor, in the same step. */
  ghost predicate HandsOver(s: State, s': State, me: Fiber, j: Fiber) {
    && s.control.Active? && s.control.fiber == me
    && me in s.fibers && j in s.fibers && me != j && me in s.handles
    && s.fibers[me].joiner == Joined(j) && s.fibers[me].status.Running?
    && s'.fibers.Keys == s.fibers.Keys
    && (forall f :: f in s.fibers && f != me && f != j ==> s'.fibers[f] == s.fibers[f])
    && s'.fibers[j] == SetInterrupter(s.fibers[j], NoInterrupter)
    && s'.fibers[me].status.Finished?
    && s'.fibers[me] == s.fibers[me].(status := s'.fibers[me].status)
    && s'.handles.Keys == s.handles.Keys
    && (forall h :: h in s.handles && h != me ==> s'.handles[h] == s.handles[h])
    && s'.handles[me].fiber == None
    && s'.control.Active? && s'.control.fiber == j
    && s'.strand == s.strand && s'.nextFiber == s.nextFiber
    && s'.mutexes == s.mutexes && s'.rmutexes == s.rmutexes
    && s'.conds == s.conds && s'.promises == s.promises
  }

  lemma FinishedJoined(s: State, w: Places, o: Outcome) returns (w': Places)
    requires InStep(s, w) && Me(s).joiner.Joined?
    ensures Inv(DoFinish(s, o).0, w')
  {
    var me := s.control.fiber;
    var j := Me(s).joiner.fiber;
    var s' := DoFinish(s, o).0;
    RunningPlace(s, w);
    JoinerPlace(s, w, me);
    assert OwnerOk(s, me) && HandleOk(s, me);
    assert HandsOver(s, s', me, j);
    w' := w[me := AtEnd][j := OnCpu];
    HandOverQueues(s, s', w, me, j);
    HandOverHandles(s, s', w, me, j);
    HandOverInterrupts(s, s', w, me, j);
  }

  lemma HandOverInterrupts(s: State, s': State, w: Places, me: Fiber, j: Fiber)
    requires Inv(s, w) && HandsOver(s, s', me, j)
    requires me in w && w[me] == OnCpu && j in w && w[j] == InJoin(me)
    ensures InterruptsOk(s', w[me := AtEnd][j := OnCpu])
  {
    assert InterruptOk(s, w, j) && InterruptOk(s, w, me);
    forall r | r in s.strand ensures r.fiber !in {me, j} { PostedElsewhere(s, w, r); }
    InterruptsFrame(s, s', w, w[me := AtEnd][j := OnCpu], {me, j});
  }

  lemma HandOverElsewhere(s: State, s': State, me: Fiber, j: Fiber, p: Place)
    requires HandsOver(s, s', me, j) && p != OnCpu && p != InJoin(me)
    ensures Queue(s', p) == Queue(s, p)
  {}

  lemma HandOverQueues(s: State, s': State, w: Places, me: Fiber, j: Fiber)
    requires Placed(s, w) && HandsOver(s, s', me, j)
    requires me in w && w[me] == OnCpu && j in w && w[j] == InJoin(me)
    ensures Placed(s', w[me := AtEnd][j := OnCpu])
  {
    var w' := w[me := AtEnd][j := OnCpu];
    forall p: Place | p != AtEnd ensures Holds(Queue(s', p), w', p) {
      Members(s, w, p);
      if p == InJoin(me) {
        assert Queue(s, p) == [j];
      } else if p == OnCpu {
        assert Queue(s, p) == [me];
      } else {
        HandOverElsewhere(s, s', me, j, p);
        HoldsOther(Queue(s, p), w, p, me, AtEnd);
        HoldsOther(Queue(s, p), w[me := AtEnd], p, j, OnCpu);
      }
    }
  }

  lemma HandOverHandles(s: State, s': State, w: Places, me: Fiber, j: Fiber)
    requires JoinsOk(s) && HandsOver(s, s', me, j)
    ensures JoinsOk(s')
  {
    assert OwnerOk(s, me) && HandleOk(s, me);
    forall k | k in s'.handles ensures HandleOk(s', k) {
      assert HandleOk(s, k);
    }
    forall u | u in s'.fibers ensures OwnerOk(s', u) {
      assert OwnerOk(s, u);
    }
  }

  lemma FinishCalled(s: State, w: Places, o: Outcome) returns (w': Places)
    requires InStep(s, w)
    ensures Inv(DoFinish(s, o).0, w')
  {
    match Me(s).joiner
    case Detached => w' := FinishedDetached(s, w, o);
    case NoJoiner => w' := FinishedUnjoined(s, w, o);
    case Joined(_) => w' := FinishedJoined(s, w, o);
  }
}
