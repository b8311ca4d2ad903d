/**
  The runtime as objects updated in place: the handles that Lua code holds, the
  per-fiber tables of the registry, and the VM that owns the strand. Every method
  is proved to perform exactly the step of the same name in `Runtime`.
 */
module VmContexts {
  import opened Wrappers
  import opened SizeT
  import opened Sequences
  import opened Runtime
  import opened Invariant
  import opened Runs

  /** The table of one fiber in the registry, indexed by FiberDataIndex. */
  class FiberTable {
    var joiner: Joiner
    var status: Status
    var suspensionDisallowed: nat
    var interruptionDisabled: nat
    var interrupted: bool
    var interrupter: Interrupter
    var userHandle: Option<HandleId>

    ghost function View(): FiberData
      reads this
    {
      FiberData(joiner, status, suspensionDisallowed, interruptionDisabled, interrupted, interrupter, userHandle)
    }

    constructor ()
      ensures View() == FreshData(NoJoiner)
    {
      joiner, status := NoJoiner, Running;
      suspensionDisallowed, interruptionDisabled := 0, 0;
      interrupted, interrupter, userHandle := false, NoInterrupter, None;
    }

    /** `set_interrupter` for the fiber of this table. */
    method SetInterrupter(i: Interrupter)
      modifies this`interrupter
      ensures View() == Runtime.SetInterrupter(old(View()), i)
    {
      if interruptionDisabled > 0 {
        return;
      }
      interrupter := i;
    }

    /** `unsafe_can_suspend`. */
    method CheckSuspend() returns (e: Option<Errc>)
      ensures e == SuspendError(View())
    {
      if suspensionDisallowed != 0 {
        return Some(ForbidSuspendBlock);
      }
      if interruptionDisabled > 0 {
        return None;
      }
      if interrupted {
        return Some(Interrupted);
      }
      return None;
    }
  }

  class FiberHandle {
    var fiber: Option<Fiber>
    var joinInProgress: bool
    var interruptionCaught: Option<bool>

    ghost function View(): HandleData
      reads this
    {
      HandleData(fiber, joinInProgress, interruptionCaught)
    }

    constructor (f: Fiber)
      ensures View() == HandleData(Some(f), false, None)
    {
      fiber, joinInProgress, interruptionCaught := Some(f), false, None;
    }
  }

  class MutexHandle {
    var pending: seq<Fiber>
    var locked: bool

    ghost function View(): MutexData
      reads this
    {
      MutexData(locked, pending)
    }

    constructor ()
      ensures View() == MutexData(false, [])
    {
      pending, locked := [], false;
    }
  }

  class RecursiveMutexHandle {
    var pending: seq<Fiber>
    var nlocked: nat
    var owner: Option<Fiber>

    ghost function View(): RMutexData
      reads this
    {
      RMutexData(owner, nlocked, pending)
    }

    constructor ()
      ensures View() == RMutexData(None, 0, [])
    {
      pending, nlocked, owner := [], 0, None;
    }
  }

  class CondHandle {
    var pending: seq<Fiber>

    constructor ()
      ensures pending == []
    {
      pending := [];
    }
  }

  class FutureSharedState {
    var waiters: seq<Fiber>
    var state: FutureState
    var promiseAlive: bool

    ghost function View(): PromiseData
      reads this
    {
      PromiseData(state, waiters, promiseAlive)
    }

    constructor ()
      ensures View() == PromiseData(Empty, [], true)
    {
      waiters, state, promiseAlive := [], Empty, true;
    }
  }

  ghost predicate Injective<T>(m: map<nat, T>) {
    forall i, j {:trigger m[i], m[j]} :: i in m && j in m && i != j ==> m[i] != m[j]
  }

  /** A new fiber gets a name that no fiber and no handle has. */
  lemma FreshName(s: State)
    requires Coherent(s)
    ensures s.nextFiber !in s.fibers && s.nextFiber !in s.handles
  {}

  /** Handing a mutex on does not depend on who runs. */
  lemma ParkedHandOn(s: State, m: MutexId)
    requires m in s.mutexes
    ensures forall c {:trigger s.(control := c)} :: Park(Runtime.HandOn(s.(control := c), m)) == Runtime.HandOn(Park(s), m)
  {}

  class VmContext {
    var control: Control
    var strand: seq<Resume>
    var fiberList: map<Fiber, FiberTable>
    var handles: map<HandleId, FiberHandle>
    var mutexes: map<MutexId, MutexHandle>
    var rmutexes: map<RMutexId, RecursiveMutexHandle>
    var conds: map<CondId, CondHandle>
    var promises: map<PromiseId, FutureSharedState>
    var nextFiber: Fiber

    /** Different names stand for different objects. */
    ghost predicate Valid()
      reads this
    {
      && Injective(fiberList) && Injective(handles) && Injective(mutexes)
      && Injective(rmutexes) && Injective(conds) && Injective(promises)
    }

    ghost function FiberView(): map<Fiber, FiberData>
      reads this`fiberList, fiberList.Values
    {
      map f | f in fiberList :: fiberList[f].View()
    }

    ghost function HandleView(): map<HandleId, HandleData>
      reads this`handles, handles.Values
    {
      map h | h in handles :: handles[h].View()
    }

    ghost function MutexView(): map<MutexId, MutexData>
      reads this`mutexes, mutexes.Values
    {
      map m | m in mutexes :: mutexes[m].View()
    }

    ghost function RMutexView(): map<RMutexId, RMutexData>
      reads this`rmutexes, rmutexes.Values
    {
      map m | m in rmutexes :: rmutexes[m].View()
    }

    ghost function CondView(): map<CondId, seq<Fiber>>
      reads this`conds, conds.Values
    {
      map c | c in conds :: conds[c].pending
    }

    ghost function PromiseView(): map<PromiseId, PromiseData>
      reads this`promises, promises.Values
    {
      map p | p in promises :: promises[p].View()
    }

    /** The state of the step machine that this VM is in. */
    ghost function Snapshot(): State
      reads this, fiberList.Values, handles.Values, mutexes.Values, rmutexes.Values, conds.Values, promises.Values
    {
      State(control, strand, FiberView(), HandleView(), MutexView(), RMutexView(),
                  CondView(), PromiseView(), nextFiber)
    }

    /** A VM whose main fiber is about to run. */
    constructor ()
      ensures Valid() && Snapshot() == Init()
    {
      var main := new FiberTable();
      main.joiner := Detached;
      control, strand, nextFiber := Active(0, NoArgs), [], 1;
      fiberList := map[0 := main];
      handles, mutexes, rmutexes, conds, promises := map[], map[], map[], map[], map[];
    }

    method Post(r: Resume)
      modifies this`strand
      ensures strand == old(strand) + [r] && Snapshot() == Runtime.Post(old(Snapshot()), r)
    {
      strand := strand + [r];
      NoObject();
    }

    /** Posts one closure for each fiber of a list. */
    method PostEach(q: seq<Fiber>, args: Args)
      modifies this`strand
      ensures strand == PostAll(old(Snapshot()), q, args).strand
    {
      var i := 0;
      while i < |q|
        invariant i <= |q|
        invariant |strand| == |old(strand)| + i && strand[..|old(strand)|] == old(strand)
        invariant forall k :: 0 <= k < i ==> strand[|old(strand)| + k] == Resume(q[k], args, false)
      {
        strand := strand + [Resume(q[i], args, false)];
        i := i + 1;
      }
    }

    // ---------------------------------------------------------------- what an update of an object means for the state

    twostate predicate SameNames()
      reads this
    {
      unchanged(this`fiberList, this`handles, this`mutexes, this`rmutexes, this`conds, this`promises, this`nextFiber)
    }

    /** At most the table of `f` changed. */
    twostate predicate FiberKept(f: Fiber)
      reads this, fiberList.Values
    {
      && fiberList == old(fiberList) && f in fiberList
      && forall i :: i in fiberList && i != f ==> fiberList[i].View() == old(fiberList[i].View())
    }

    twostate lemma FiberChanged(new f: Fiber)
      requires SameNames() && FiberKept(f)
      ensures FiberView() == old(FiberView())[f := fiberList[f].View()]
    {}

    twostate lemma HandleChanged(new h: HandleId)
      requires SameNames() && h in handles
      requires forall i :: i in handles && i != h ==> handles[i].View() == old(handles[i].View())
      ensures HandleView() == old(HandleView())[h := handles[h].View()]
    {}

    twostate lemma CondChanged(new c: CondId)
      requires SameNames() && c in conds
      requires forall i :: i in conds && i != c ==> conds[i].pending == old(conds[i].pending)
      ensures CondView() == old(CondView())[c := conds[c].pending]
    {}

    twostate lemma PromiseChanged(new p: PromiseId)
      requires SameNames() && p in promises
      requires forall i :: i in promises && i != p ==> promises[i].View() == old(promises[i].View())
      ensures PromiseView() == old(PromiseView())[p := promises[p].View()]
    {}

    twostate lemma MutexChanged(new m: MutexId)
      requires SameNames() && m in mutexes
      requires forall i :: i in mutexes && i != m ==> mutexes[i].View() == old(mutexes[i].View())
      ensures MutexView() == old(MutexView())[m := mutexes[m].View()]
    {}

    twostate lemma RMutexChanged(new m: RMutexId)
      requires SameNames() && m in rmutexes
      requires forall i :: i in rmutexes && i != m ==> rmutexes[i].View() == old(rmutexes[i].View())
      ensures RMutexView() == old(RMutexView())[m := rmutexes[m].View()]
    {}

    twostate lemma MutexAdded(new m: MutexId)
      requires m in mutexes && m !in old(mutexes) && mutexes.Keys == old(mutexes.Keys) + {m}
      requires forall i :: i in old(mutexes) ==> mutexes[i] == old(mutexes[i]) && mutexes[i].View() == old(mutexes[i].View())
      ensures MutexView() == old(MutexView())[m := mutexes[m].View()]
    {}

    twostate lemma RMutexAdded(new m: RMutexId)
      requires m in rmutexes && m !in old(rmutexes) && rmutexes.Keys == old(rmutexes.Keys) + {m}
      requires forall i :: i in old(rmutexes) ==> rmutexes[i] == old(rmutexes[i]) && rmutexes[i].View() == old(rmutexes[i].View())
      ensures RMutexView() == old(RMutexView())[m := rmutexes[m].View()]
    {}

    twostate lemma CondAdded(new c: CondId)
      requires c in conds && c !in old(conds) && conds.Keys == old(conds.Keys) + {c}
      requires forall i :: i in old(conds) ==> conds[i] == old(conds[i]) && conds[i].pending == old(conds[i].pending)
      ensures CondView() == old(CondView())[c := conds[c].pending]
    {}

    twostate lemma PromiseAdded(new p: PromiseId)
      requires p in promises && p !in old(promises) && promises.Keys == old(promises.Keys) + {p}
      requires forall i :: i in old(promises) ==> promises[i] == old(promises[i]) && promises[i].View() == old(promises[i].View())
      ensures PromiseView() == old(PromiseView())[p := promises[p].View()]
    {}

    /** Among the objects only mutex `m` may have changed. */
    twostate lemma OnlyMutex(new m: MutexId)
      requires SameNames() && unchanged(fiberList.Values) && unchanged(handles.Values)
      requires unchanged(rmutexes.Values) && unchanged(conds.Values) && unchanged(promises.Values)
      requires m in mutexes && forall i :: i in mutexes && i != m ==> mutexes[i].View() == old(mutexes[i].View())
      ensures Snapshot() == old(Snapshot()).(control := control, strand := strand,
                              mutexes := old(MutexView())[m := mutexes[m].View()])
    {
      MutexChanged(m);
    }

    twostate lemma OnlyRMutex(new m: RMutexId)
      requires SameNames() && unchanged(fiberList.Values) && unchanged(handles.Values)
      requires unchanged(mutexes.Values) && unchanged(conds.Values) && unchanged(promises.Values)
      requires m in rmutexes && forall i :: i in rmutexes && i != m ==> rmutexes[i].View() == old(rmutexes[i].View())
      ensures Snapshot() == old(Snapshot()).(control := control, strand := strand,
                              rmutexes := old(RMutexView())[m := rmutexes[m].View()])
    {
      RMutexChanged(m);
    }

    twostate lemma OnlyCond(new c: CondId)
      requires SameNames() && unchanged(fiberList.Values) && unchanged(handles.Values)
      requires unchanged(mutexes.Values) && unchanged(rmutexes.Values) && unchanged(promises.Values)
      requires c in conds && forall i :: i in conds && i != c ==> conds[i].pending == old(conds[i].pending)
      ensures Snapshot() == old(Snapshot()).(control := control, strand := strand,
                              conds := old(CondView())[c := conds[c].pending])
    {
      CondChanged(c);
    }

    twostate lemma OnlyPromise(new p: PromiseId)
      requires SameNames() && unchanged(fiberList.Values) && unchanged(handles.Values)
      requires unchanged(mutexes.Values) && unchanged(rmutexes.Values) && unchanged(conds.Values)
      requires p in promises && forall i :: i in promises && i != p ==> promises[i].View() == old(promises[i].View())
      ensures Snapshot() == old(Snapshot()).(control := control, strand := strand,
                              promises := old(PromiseView())[p := promises[p].View()])
    {
      PromiseChanged(p);
    }

    twostate lemma OnlyFiber(new f: Fiber)
      requires SameNames() && FiberKept(f) && unchanged(handles.Values) && unchanged(mutexes.Values)
      requires unchanged(rmutexes.Values) && unchanged(conds.Values) && unchanged(promises.Values)
      ensures Snapshot() == old(Snapshot()).(control := control, strand := strand,
                              fibers := old(FiberView())[f := fiberList[f].View()])
    {
      FiberChanged(f);
    }

    twostate lemma NoObject()
      requires SameNames() && unchanged(fiberList.Values) && unchanged(handles.Values) && unchanged(mutexes.Values)
      requires unchanged(rmutexes.Values) && unchanged(conds.Values) && unchanged(promises.Values)
      ensures Snapshot() == old(Snapshot()).(control := control, strand := strand)
    {}

    twostate lemma OnlyHandle(new h: HandleId)
      requires SameNames() && unchanged(fiberList.Values) && unchanged(mutexes.Values)
      requires unchanged(rmutexes.Values) && unchanged(conds.Values) && unchanged(promises.Values)
      requires h in handles && forall i :: i in handles && i != h ==> handles[i].View() == old(handles[i].View())
      ensures Snapshot() == old(Snapshot()).(control := control, strand := strand,
                              handles := old(HandleView())[h := handles[h].View()])
    {
      HandleChanged(h);
    }

    twostate lemma FiberAndHandle(new f: Fiber, new h: HandleId)
      requires SameNames() && FiberKept(f) && unchanged(mutexes.Values)
      requires unchanged(rmutexes.Values) && unchanged(conds.Values) && unchanged(promises.Values)
      requires h in handles && forall i :: i in handles && i != h ==> handles[i].View() == old(handles[i].View())
      ensures Snapshot() == old(Snapshot()).(control := control, strand := strand,
                              fibers := old(FiberView())[f := fiberList[f].View()],
                              handles := old(HandleView())[h := handles[h].View()])
    {
      FiberChanged(f);
      HandleChanged(h);
    }

    twostate lemma FiberAndCond(new f: Fiber, new c: CondId)
      requires SameNames() && FiberKept(f) && unchanged(handles.Values) && unchanged(mutexes.Values)
      requires unchanged(rmutexes.Values) && unchanged(promises.Values)
      requires c in conds && forall i :: i in conds && i != c ==> conds[i].pending == old(conds[i].pending)
      ensures Snapshot() == old(Snapshot()).(control := control, strand := strand,
                              fibers := old(FiberView())[f := fiberList[f].View()],
                              conds := old(CondView())[c := conds[c].pending])
    {
      FiberChanged(f);
      CondChanged(c);
    }

    twostate lemma FiberAndPromise(new f: Fiber, new p: PromiseId)
      requires SameNames() && FiberKept(f) && unchanged(handles.Values) && unchanged(mutexes.Values)
      requires unchanged(rmutexes.Values) && unchanged(conds.Values)
      requires p in promises && forall i :: i in promises && i != p ==> promises[i].View() == old(promises[i].View())
      ensures Snapshot() == old(Snapshot()).(control := control, strand := strand,
                              fibers := old(FiberView())[f := fiberList[f].View()],
                              promises := old(PromiseView())[p := promises[p].View()])
    {
      FiberChanged(f);
      PromiseChanged(p);
    }

    // ---------------------------------------------------------------- mutex.cpp

    method MutexLock(m: MutexId) returns (r: Reply)
      requires Valid() && CanRun(Snapshot()) && m in mutexes
      modifies this`control, mutexes[m]
      ensures Valid() && (Snapshot(), r) == DoMutexLock(old(Snapshot()), m)
    {
      var handle, me := mutexes[m], control.fiber;
      if fiberList[me].suspensionDisallowed != 0 {
        return Raise(ForbidSuspendBlock);
      }
      if handle.locked {
        handle.pending := handle.pending + [me];
        control := Idle;
        r := Suspended;
      } else {
        handle.locked := true;
        r := Done;
      }
      OnlyMutex(m);
    }

    method MutexTryLock(m: MutexId) returns (r: Reply)
      requires Valid() && CanRun(Snapshot()) && m in mutexes
      modifies mutexes[m]
      ensures Valid() && (Snapshot(), r) == DoMutexTryLock(old(Snapshot()), m)
    {
      var handle := mutexes[m];
      if handle.locked {
        return Bool(false);
      }
      handle.locked := true;
      r := Bool(true);
      OnlyMutex(m);
    }

    /** Unlocks, or posts the head of the queue and keeps the mutex locked for it. */
    method HandOn(m: MutexId)
      requires Valid() && m in mutexes
      modifies this`strand, mutexes[m]
      ensures Valid() && Snapshot() == Runtime.HandOn(old(Snapshot()), m)
    {
      var handle := mutexes[m];
      if |handle.pending| == 0 {
        handle.locked := false;
      } else {
        var next := handle.pending[0];
        handle.pending := handle.pending[1..];
        strand := strand + [Resume(next, NoArgs, true)];
      }
      OnlyMutex(m);
    }

    method MutexUnlock(m: MutexId) returns (r: Reply)
      requires Valid() && CanRun(Snapshot()) && m in mutexes
      modifies this`strand, mutexes[m]
      ensures Valid() && (Snapshot(), r) == DoMutexUnlock(old(Snapshot()), m)
    {
      if !mutexes[m].locked {
        return Raise(EPERM);
      }
      HandOn(m);
      r := Done;
    }

    method NewMutex(m: MutexId)
      requires Valid() && m !in mutexes
      modifies this`mutexes
      ensures Valid() && Snapshot() == old(Snapshot()).(mutexes := old(Snapshot()).mutexes[m := MutexData(false, [])])
    {
      var handle := new MutexHandle();
      InsertMutex(m, handle);
    }

    method InsertMutex(m: MutexId, handle: MutexHandle)
      requires Valid() && m !in mutexes && handle !in mutexes.Values && handle.View() == MutexData(false, [])
      modifies this`mutexes
      ensures Valid() && Snapshot() == old(Snapshot()).(mutexes := old(Snapshot()).mutexes[m := MutexData(false, [])])
    {
      mutexes := mutexes[m := handle];
      MutexAdded(m);
    }

    // ---------------------------------------------------------------- recursive_mutex.cpp

    method NewRMutex(m: RMutexId)
      requires Valid() && m !in rmutexes
      modifies this`rmutexes
      ensures Valid() && Snapshot() == old(Snapshot()).(rmutexes := old(Snapshot()).rmutexes[m := RMutexData(None, 0, [])])
    {
      var handle := new RecursiveMutexHandle();
      InsertRMutex(m, handle);
    }

    method InsertRMutex(m: RMutexId, handle: RecursiveMutexHandle)
      requires Valid() && m !in rmutexes && handle !in rmutexes.Values && handle.View() == RMutexData(None, 0, [])
      modifies this`rmutexes
      ensures Valid() && Snapshot() == old(Snapshot()).(rmutexes := old(Snapshot()).rmutexes[m := RMutexData(None, 0, [])])
    {
      rmutexes := rmutexes[m := handle];
      RMutexAdded(m);
    }

    method RMutexLock(m: RMutexId) returns (r: Reply)
      requires Valid() && CanRun(Snapshot()) && m in rmutexes
      modifies this`control, rmutexes[m]
      ensures Valid() && (Snapshot(), r) == DoRMutexLock(old(Snapshot()), m)
    {
      var handle, me := rmutexes[m], control.fiber;
      if fiberList[me].suspensionDisallowed != 0 {
        return Raise(ForbidSuspendBlock);
      }
      if handle.owner.Some? {
        if handle.owner.value == me {
          if handle.nlocked == SIZE_MAX {
            return Raise(EOVERFLOW);
          }
          handle.nlocked := handle.nlocked + 1;
          r := Done;
        } else {
          handle.pending := handle.pending + [me];
          control := Idle;
          r := Suspended;
        }
      } else {
        handle.owner := Some(me);
        handle.nlocked := 1;
        r := Done;
      }
      OnlyRMutex(m);
    }

    method RMutexTryLock(m: RMutexId) returns (r: Reply)
      requires Valid() && CanRun(Snapshot()) && m in rmutexes
      modifies rmutexes[m]
      ensures Valid() && (Snapshot(), r) == DoRMutexTryLock(old(Snapshot()), m)
    {
      var handle, me := rmutexes[m], control.fiber;
      if handle.owner.Some? {
        if handle.owner.value == me {
          if handle.nlocked == SIZE_MAX {
            return Raise(EOVERFLOW);
          }
          handle.nlocked := handle.nlocked + 1;
          r := Bool(true);
        } else {
          return Bool(false);
        }
      } else {
        handle.owner := Some(me);
        handle.nlocked := 1;
        r := Bool(true);
      }
      OnlyRMutex(m);
    }

    method RMutexUnlock(m: RMutexId) returns (r: Reply)
      requires Valid() && CanRun(Snapshot()) && m in rmutexes
      modifies this`strand, rmutexes[m]
      ensures Valid() && (Snapshot(), r) == DoRMutexUnlock(old(Snapshot()), m)
    {
      var handle := rmutexes[m];
      if handle.owner != Some(control.fiber) {
        return Raise(EPERM);
      }
      r := Done;
      handle.nlocked := Decrement(handle.nlocked);
      if handle.nlocked != 0 {
      } else if |handle.pending| == 0 {
        handle.owner := None;
      } else {
        var next := handle.pending[0];
        handle.pending := handle.pending[1..];
        handle.owner := Some(next);
        handle.nlocked := 1;
        strand := strand + [Resume(next, NoArgs, true)];
      }
      OnlyRMutex(m);
    }

    // ---------------------------------------------------------------- condition_variable.cpp

    method NewCond(c: CondId)
      requires Valid() && c !in conds
      modifies this`conds
      ensures Valid() && Snapshot() == old(Snapshot()).(conds := old(Snapshot()).conds[c := []])
    {
      var handle := new CondHandle();
      InsertCond(c, handle);
    }

    method InsertCond(c: CondId, handle: CondHandle)
      requires Valid() && c !in conds && handle !in conds.Values && handle.pending == []
      modifies this`conds
      ensures Valid() && Snapshot() == old(Snapshot()).(conds := old(Snapshot()).conds[c := []])
    {
      conds := conds[c := handle];
      CondAdded(c);
    }

    method CondWait(c: CondId, m: MutexId) returns (r: Reply)
      requires Valid() && CanRun(Snapshot()) && c in conds && m in mutexes
      modifies this`control, this`strand, fiberList[control.fiber], conds[c], mutexes[m]
      ensures Valid() && (Snapshot(), r) == DoCondWait(old(Snapshot()), c, m)
    {
      var me := control.fiber;
      if !mutexes[m].locked {
        return Raise(EPERM);
      }
      var e := fiberList[me].CheckSuspend();
      if e.Some? {
        return Raise(e.value);
      }
      ParkOnCond(c);
      ParkedHandOn(Snapshot(), m);
      HandOn(m);
      r := Suspended;
    }

    /** The running fiber sets its interrupter, joins the list and gives up control. */
    method ParkOnCond(c: CondId)
      requires Valid() && CanRun(Snapshot()) && c in conds
      modifies this`control, fiberList[control.fiber], conds[c]
      ensures Valid()
      ensures var s, me := old(Snapshot()), old(control.fiber);
              Snapshot() == s.(control := Idle,
                fibers := s.fibers[me := Runtime.SetInterrupter(s.fibers[me], CondInterrupter(c, me))],
                conds := s.conds[c := s.conds[c] + [me]])
    {
      var me := control.fiber;
      fiberList[me].SetInterrupter(CondInterrupter(c, me));
      conds[c].pending := conds[c].pending + [me];
      control := Idle;
      FiberAndCond(me, c);
    }

    method NotifyOne(c: CondId) returns (r: Reply)
      requires Valid() && CanRun(Snapshot()) && c in conds
      modifies this`strand, conds[c]
      ensures Valid() && (Snapshot(), r) == DoNotifyOne(old(Snapshot()), c)
    {
      var handle := conds[c];
      r := Done;
      if |handle.pending| == 0 {
        return;
      }
      var next := handle.pending[0];
      handle.pending := handle.pending[1..];
      strand := strand + [Resume(next, NoArgs, false)];
      OnlyCond(c);
    }

    method NotifyAll(c: CondId) returns (r: Reply)
      requires Valid() && CanRun(Snapshot()) && c in conds
      modifies this`strand, conds[c]
      ensures Valid() && (Snapshot(), r) == DoNotifyAll(old(Snapshot()), c)
    {
      var handle := conds[c];
      PostEach(handle.pending, NoArgs);
      handle.pending := [];
      r := Done;
      OnlyCond(c);
    }

    // ---------------------------------------------------------------- future.cpp

    method NewPromise(p: PromiseId)
      requires Valid() && p !in promises
      modifies this`promises
      ensures Valid() && Snapshot() == old(Snapshot()).(promises := old(Snapshot()).promises[p := PromiseData(Empty, [], true)])
    {
      var handle := new FutureSharedState();
      InsertPromise(p, handle);
    }

    method InsertPromise(p: PromiseId, handle: FutureSharedState)
      requires Valid() && p !in promises && handle !in promises.Values && handle.View() == PromiseData(Empty, [], true)
      modifies this`promises
      ensures Valid() && Snapshot() == old(Snapshot()).(promises := old(Snapshot()).promises[p := PromiseData(Empty, [], true)])
    {
      promises := promises[p := handle];
      PromiseAdded(p);
    }

    method PromiseSetValue(p: PromiseId, v: Value) returns (r: Reply)
      requires Valid() && CanRun(Snapshot()) && p in promises
      modifies this`strand, promises[p]
      ensures Valid() && (Snapshot(), r) == DoSetValue(old(Snapshot()), p, v)
    {
      var shared := promises[p];
      if !shared.state.Empty? {
        return Raise(PromiseAlreadySatisfied);
      }
      PostEach(shared.waiters, Ready(v));
      shared.state := ValueReady(v);
      shared.waiters := [];
      r := Done;
      OnlyPromise(p);
    }

    method PromiseSetError(p: PromiseId, v: Value) returns (r: Reply)
      requires Valid() && CanRun(Snapshot()) && p in promises
      modifies this`strand, promises[p]
      ensures Valid() && (Snapshot(), r) == DoSetError(old(Snapshot()), p, v)
    {
      var shared := promises[p];
      if v == Nil {
        return Raise(EINVAL);
      }
      if !shared.state.Empty? {
        return Raise(PromiseAlreadySatisfied);
      }
      PostEach(shared.waiters, Failed(v));
      shared.state := ErrorReady(v);
      shared.waiters := [];
      r := Done;
      OnlyPromise(p);
    }

    method PromiseGc(p: PromiseId) returns (r: Reply)
      requires Valid() && CanRun(Snapshot()) && p in promises
      modifies this`strand, promises[p]
      ensures Valid() && (Snapshot(), r) == DoPromiseGc(old(Snapshot()), p)
    {
      var shared := promises[p];
      PostEach(shared.waiters, Failure(BrokenPromise));
      shared.state := Broken;
      shared.waiters := [];
      shared.promiseAlive := false;
      r := Done;
      OnlyPromise(p);
    }

    method FutureGet(p: PromiseId) returns (r: Reply)
      requires Valid() && CanRun(Snapshot()) && p in promises
      modifies this`control, fiberList[control.fiber], promises[p]
      ensures Valid() && (Snapshot(), r) == DoFutureGet(old(Snapshot()), p)
    {
      var shared, me := promises[p], control.fiber;
      var e := fiberList[me].CheckSuspend();
      if e.Some? {
        return Raise(e.value);
      }
      match shared.state
      case Broken => return Raise(BrokenPromise);
      case ValueReady(v) => return Got(v);
      case ErrorReady(v) => return Throw(v);
      case Empty =>
        ParkOnFuture(p);
        r := Suspended;
    }

    /** The running fiber sets its interrupter, joins the waiters and gives up control. */
    method ParkOnFuture(p: PromiseId)
      requires Valid() && CanRun(Snapshot()) && p in promises
      modifies this`control, fiberList[control.fiber], promises[p]
      ensures Valid()
      ensures var s, me := old(Snapshot()), old(control.fiber);
              Snapshot() == s.(control := Idle,
                fibers := s.fibers[me := Runtime.SetInterrupter(s.fibers[me], FutureInterrupter(p, me))],
                promises := s.promises[p := s.promises[p].(waiters := s.promises[p].waiters + [me])])
    {
      var shared, me := promises[p], control.fiber;
      fiberList[me].SetInterrupter(FutureInterrupter(p, me));
      shared.waiters := shared.waiters + [me];
      control := Idle;
      FiberAndPromise(me, p);
    }

    // ---------------------------------------------------------------- fiber.cpp

    method Spawn() returns (r: Reply)
      requires Valid() && CanRun(Snapshot()) && nextFiber !in fiberList && nextFiber !in handles
      modifies this`strand, this`fiberList, this`handles, this`nextFiber
      ensures Valid() && (Snapshot(), r) == DoSpawn(old(Snapshot()))
    {
      AddTable(nextFiber);
      Introduce();
      r := Done;
    }

    /** Posts the first resume of the new fiber, and gives it its handle. */
    method Introduce()
      requires Valid() && nextFiber !in handles
      modifies this`strand, this`handles, this`nextFiber
      ensures Valid()
      ensures var s, f := old(Snapshot()), old(nextFiber);
              Snapshot() == s.(strand := s.strand + [Resume(f, NoArgs, true)],
                handles := s.handles[f := HandleData(Some(f), false, None)], nextFiber := f + 1)
    {
      Post(Resume(nextFiber, NoArgs, true));
      AddHandle(nextFiber);
      CountFiber();
    }

    method AddTable(f: Fiber)
      requires Valid() && f !in fiberList
      modifies this`fiberList
      ensures Valid()
      ensures Snapshot() == old(Snapshot()).(fibers := old(Snapshot()).fibers[f := FreshData(NoJoiner)])
    {
      var table := new FiberTable();
      ListFiber(f, table);
    }

    method AddHandle(h: HandleId)
      requires Valid() && h !in handles
      modifies this`handles
      ensures Valid()
      ensures Snapshot() == old(Snapshot()).(handles := old(Snapshot()).handles[h := HandleData(Some(h), false, None)])
    {
      var handle := new FiberHandle(h);
      KeepHandle(h, handle);
    }

    twostate lemma FiberAdded(new f: Fiber)
      requires f in fiberList && f !in old(fiberList) && fiberList.Keys == old(fiberList.Keys) + {f}
      requires forall i :: i in old(fiberList) ==>
                 fiberList[i] == old(fiberList[i]) && fiberList[i].View() == old(fiberList[i].View())
      ensures FiberView() == old(FiberView())[f := fiberList[f].View()]
    {}

    twostate lemma HandleAdded(new h: HandleId)
      requires h in handles && h !in old(handles) && handles.Keys == old(handles.Keys) + {h}
      requires forall i :: i in old(handles) ==> handles[i] == old(handles[i]) && handles[i].View() == old(handles[i].View())
      ensures HandleView() == old(HandleView())[h := handles[h].View()]
    {}

    method CountFiber()
      requires Valid()
      modifies this`nextFiber
      ensures Valid() && Snapshot() == old(Snapshot()).(nextFiber := old(nextFiber) + 1)
    {
      nextFiber := nextFiber + 1;
    }

    method ListFiber(f: Fiber, table: FiberTable)
      requires Valid() && f !in fiberList && table !in fiberList.Values
      modifies this`fiberList
      ensures Valid()
      ensures Snapshot() == old(Snapshot()).(fibers := old(Snapshot()).fibers[f := table.View()])
    {
      fiberList := fiberList[f := table];
      FiberAdded(f);
    }

    method KeepHandle(h: HandleId, handle: FiberHandle)
      requires Valid() && h !in handles && handle !in handles.Values
      modifies this`handles
      ensures Valid()
      ensures Snapshot() == old(Snapshot()).(handles := old(Snapshot()).handles[h := handle.View()])
    {
      handles := handles[h := handle];
      HandleAdded(h);
    }

    method Yield() returns (r: Reply)
      requires Valid() && CanRun(Snapshot())
      modifies this`control, this`strand
      ensures Valid() && (Snapshot(), r) == DoYield(old(Snapshot()))
    {
      var e := fiberList[control.fiber].CheckSuspend();
      if e.Some? {
        return Raise(e.value);
      }
      Post(Resume(control.fiber, NoArgs, true));
      control := Idle;
      r := Suspended;
      NoObject();
    }

    method Join(h: HandleId) returns (r: Reply)
      requires Valid() && CanRun(Snapshot()) && h in handles
      modifies this`control, this`fiberList, fiberList.Values, handles[h]
      ensures Valid() && (Snapshot(), r) == DoJoin(old(Snapshot()), h)
    {
      var me, handle := control.fiber, handles[h];
      var e := fiberList[me].CheckSuspend();
      if e.Some? {
        return Raise(e.value);
      }
      if handle.fiber.None? || handle.joinInProgress {
        return Raise(EINVAL);
      }
      if handle.fiber.value == me {
        return Raise(EDEADLK);
      }
      assert HandleWellFormed(Snapshot(), h);
      var t := handle.fiber.value;
      match fiberList[t].status
      case Running =>
        JoinRunning(h, t);
        r := Suspended;
      case Finished(o) =>
        Reap(h, t, Some(o == Raised(InterruptedError)));
        r := JoinReply(JoinArgs(o));
    }

    /** The fiber is still running: become its joiner. */
    method JoinRunning(h: HandleId, t: Fiber)
      requires Valid() && control.Active? && h in handles && t in fiberList
      requires control.fiber in fiberList && t != control.fiber
      modifies this`control, fiberList[t], fiberList[control.fiber], handles[h]
      ensures Valid()
      ensures var s, me := old(Snapshot()), old(control.fiber);
              var s1 := SetData(s, t, s.fibers[t].(joiner := Joined(me), userHandle := Some(h)));
              var s2 := SetData(s1, me, Runtime.SetInterrupter(s1.fibers[me], JoinInterrupter(h, me, t)));
              Snapshot() == Park(s2.(handles := s2.handles[h := s.handles[h].(joinInProgress := true)]))
    {
      var me := control.fiber;
      TakeJoinSlot(h, t);
      StoreInterrupter(JoinInterrupter(h, me, t));
      MarkJoining(h);
    }

    /** The running fiber becomes the joiner of `t`. */
    method TakeJoinSlot(h: HandleId, t: Fiber)
      requires Valid() && control.Active? && t in fiberList
      modifies fiberList[t]
      ensures Valid()
      ensures Snapshot() == SetData(old(Snapshot()), t,
                              old(Snapshot()).fibers[t].(joiner := Joined(control.fiber), userHandle := Some(h)))
    {
      fiberList[t].joiner := Joined(control.fiber);
      fiberList[t].userHandle := Some(h);
      OnlyFiber(t);
    }

    method StoreInterrupter(i: Interrupter)
      requires Valid() && control.Active? && control.fiber in fiberList
      modifies fiberList[control.fiber]
      ensures Valid()
      ensures Snapshot() == SetData(old(Snapshot()), control.fiber,
                              Runtime.SetInterrupter(old(Snapshot()).fibers[control.fiber], i))
    {
      fiberList[control.fiber].SetInterrupter(i);
      OnlyFiber(control.fiber);
    }

    /** The handle is in use until the join is over; its caller gives up control. */
    method MarkJoining(h: HandleId)
      requires Valid() && h in handles
      modifies this`control, handles[h]
      ensures Valid()
      ensures var s := old(Snapshot());
              Snapshot() == Park(s.(handles := s.handles[h := s.handles[h].(joinInProgress := true)]))
    {
      handles[h].joinInProgress := true;
      control := Idle;
      OnlyHandle(h);
    }

    /** The fiber has finished: take it off the list and empty its handle. */
    method Reap(h: HandleId, t: Fiber, caught: Option<bool>)
      requires Valid() && h in handles && t in fiberList
      modifies this`fiberList, handles[h]
      ensures Valid()
      ensures var s := old(Snapshot());
              Snapshot() == s.(fibers := s.fibers - {t}, handles := s.handles[h := s.handles[h].(fiber := None,
                interruptionCaught := if caught.Some? then caught else s.handles[h].interruptionCaught)])
    {
      fiberList := fiberList - {t};
      handles[h].fiber := None;
      if caught.Some? {
        handles[h].interruptionCaught := caught;
      }
      FiberRemoved(t, h);
    }

    twostate lemma FiberRemoved(new t: Fiber, new h: HandleId)
      requires unchanged(this`control, this`strand, this`handles, this`mutexes, this`rmutexes, this`conds,
                         this`promises, this`nextFiber)
      requires fiberList == old(fiberList) - {t} && unchanged(fiberList.Values) && unchanged(mutexes.Values)
      requires unchanged(rmutexes.Values) && unchanged(conds.Values) && unchanged(promises.Values)
      requires h in handles && forall i :: i in handles && i != h ==> handles[i].View() == old(handles[i].View())
      ensures Snapshot() == old(Snapshot()).(fibers := old(FiberView()) - {t},
                              handles := old(HandleView())[h := handles[h].View()])
    {
      assert FiberView() == old(FiberView()) - {t};
      assert HandleView() == old(HandleView())[h := handles[h].View()];
    }

    /** Marks a running fiber as detached. */
    method Abandon(h: HandleId, t: Fiber)
      requires Valid() && h in handles && t in fiberList
      modifies fiberList[t], handles[h]
      ensures Valid()
      ensures var s := old(Snapshot());
              Snapshot() == s.(fibers := s.fibers[t := s.fibers[t].(joiner := Detached)],
                               handles := s.handles[h := s.handles[h].(fiber := None)])
    {
      fiberList[t].joiner := Detached;
      handles[h].fiber := None;
      FiberAndHandle(t, h);
    }

    method Detach(h: HandleId) returns (r: Reply)
      requires Valid() && CanRun(Snapshot()) && h in handles
      modifies this`fiberList, fiberList.Values, handles[h]
      ensures Valid() && (Snapshot(), r) == DoDetach(old(Snapshot()), h)
    {
      var handle := handles[h];
      if handle.fiber.None? || handle.joinInProgress {
        return Raise(EINVAL);
      }
      assert HandleWellFormed(Snapshot(), h);
      var t := handle.fiber.value;
      if fiberList[t].status.Running? {
        Abandon(h, t);
      } else {
        Reap(h, t, None);
      }
      r := Done;
    }

    method HandleGc(h: HandleId) returns (r: Reply)
      requires Valid() && CanRun(Snapshot()) && h in handles
      modifies this`fiberList, fiberList.Values, handles[h]
      ensures Valid() && (Snapshot(), r) == DoGcHandle(old(Snapshot()), h)
    {
      var handle := handles[h];
      if handle.fiber.None? || handle.joinInProgress {
        return Done;
      }
      assert HandleWellFormed(Snapshot(), h);
      var t := handle.fiber.value;
      if fiberList[t].status.Running? {
        Abandon(h, t);
      } else {
        Reap(h, t, None);
      }
      r := Done;
    }

    /** Runs the closure stored in an interrupter slot. */
    method CallInterrupter(i: Interrupter)
      requires Valid() && InterrupterWellFormed(Snapshot(), i)
      modifies this`strand, fiberList.Values, handles.Values, conds.Values, promises.Values
      ensures Valid() && Snapshot() == Runtime.CallInterrupter(old(Snapshot()), i)
    {
      match i
      case NoInterrupter =>
      case CondInterrupter(c, f) => EvictFromCond(c, f);
      case FutureInterrupter(p, f) => EvictFromFuture(p, f);
      case JoinInterrupter(h, f, t) => UndoJoin(h, f, t);
    }

    method EvictFromCond(c: CondId, f: Fiber)
      requires Valid() && c in conds && InterrupterWellFormed(Snapshot(), CondInterrupter(c, f))
      modifies this`strand, conds[c]
      ensures Valid() && Snapshot() == Runtime.CallInterrupter(old(Snapshot()), CondInterrupter(c, f))
    {
      if f !in conds[c].pending {
        return;
      }
      conds[c].pending := Erase(conds[c].pending, f);
      strand := strand + [Resume(f, Failure(Interrupted), false)];
      OnlyCond(c);
    }

    method EvictFromFuture(p: PromiseId, f: Fiber)
      requires Valid() && p in promises && InterrupterWellFormed(Snapshot(), FutureInterrupter(p, f))
      modifies this`strand, promises[p]
      ensures Valid() && Snapshot() == Runtime.CallInterrupter(old(Snapshot()), FutureInterrupter(p, f))
    {
      if f !in promises[p].waiters {
        return;
      }
      promises[p].waiters := Erase(promises[p].waiters, f);
      strand := strand + [Resume(f, Failure(Interrupted), false)];
      OnlyPromise(p);
    }

    method UndoJoin(h: HandleId, f: Fiber, t: Fiber)
      requires Valid() && h in handles && t in fiberList
      modifies this`strand, fiberList[t], handles[h]
      ensures Valid()
      ensures var s := old(Snapshot());
              Snapshot() == s.(strand := s.strand + [Resume(f, JoinInterrupted, false)],
                fibers := s.fibers[t := s.fibers[t].(joiner := NoJoiner, userHandle := None)],
                handles := s.handles[h := s.handles[h].(joinInProgress := false)])
    {
      fiberList[t].joiner := NoJoiner;
      fiberList[t].userHandle := None;
      handles[h].joinInProgress := false;
      strand := strand + [Resume(f, JoinInterrupted, false)];
      FiberAndHandle(t, h);
    }

    method MarkInterrupted(t: Fiber)
      requires Valid() && t in fiberList
      modifies fiberList[t]
      ensures Valid()
      ensures Snapshot() == SetData(old(Snapshot()), t, old(Snapshot()).fibers[t].(interrupted := true))
    {
      fiberList[t].interrupted := true;
      OnlyFiber(t);
    }

    method ClearSlot(t: Fiber)
      requires Valid() && t in fiberList
      modifies fiberList[t]
      ensures Valid()
      ensures Snapshot() == SetData(old(Snapshot()), t, old(Snapshot()).fibers[t].(interrupter := NoInterrupter))
    {
      fiberList[t].interrupter := NoInterrupter;
      OnlyFiber(t);
    }

    method Interrupt(h: HandleId) returns (r: Reply)
      requires Valid() && CanRun(Snapshot()) && h in handles
      modifies this`strand, fiberList.Values, handles.Values, conds.Values, promises.Values
      ensures Valid() && (Snapshot(), r) == DoInterrupt(old(Snapshot()), h)
    {
      var handle := handles[h];
      r := Done;
      if handle.fiber.None? {
        return;
      }
      var t := handle.fiber.value;
      assert HandleWellFormed(Snapshot(), h);
      assert DataWellFormed(Snapshot(), Snapshot().fibers[t]);
      MarkInterrupted(t);
      if t == control.fiber {
        return;
      }
      var i := fiberList[t].interrupter;
      if i.NoInterrupter? {
        return;
      }
      CallInterrupter(i);
      ClearSlot(t);
    }

    /** Adds to or takes from one of the counters of the running fiber. */
    method SetCounters(interruption: nat, suspension: nat)
      requires Valid() && CanRun(Snapshot())
      modifies fiberList[control.fiber]
      ensures Valid()
      ensures Snapshot() == SetData(old(Snapshot()), control.fiber, Me(old(Snapshot())).(
                interruptionDisabled := interruption, suspensionDisallowed := suspension))
    {
      fiberList[control.fiber].interruptionDisabled := interruption;
      fiberList[control.fiber].suspensionDisallowed := suspension;
      OnlyFiber(control.fiber);
    }

    method DisableInterruption() returns (r: Reply)
      requires Valid() && CanRun(Snapshot())
      modifies fiberList[control.fiber]
      ensures Valid() && (Snapshot(), r) == DoDisableInterruption(old(Snapshot()))
    {
      var table := fiberList[control.fiber];
      SetCounters(table.interruptionDisabled + 1, table.suspensionDisallowed);
      r := Done;
    }

    method RestoreInterruption() returns (r: Reply)
      requires Valid() && CanRun(Snapshot())
      modifies fiberList[control.fiber]
      ensures Valid() && (Snapshot(), r) == DoRestoreInterruption(old(Snapshot()))
    {
      var table := fiberList[control.fiber];
      if table.interruptionDisabled == 0 {
        return Raise(InterruptionAlreadyAllowed);
      }
      SetCounters(table.interruptionDisabled - 1, table.suspensionDisallowed);
      r := Done;
    }

    method ForbidSuspend() returns (r: Reply)
      requires Valid() && CanRun(Snapshot())
      modifies fiberList[control.fiber]
      ensures Valid() && (Snapshot(), r) == DoForbidSuspend(old(Snapshot()))
    {
      var table := fiberList[control.fiber];
      SetCounters(table.interruptionDisabled, table.suspensionDisallowed + 1);
      r := Done;
    }

    method AllowSuspend() returns (r: Reply)
      requires Valid() && CanRun(Snapshot())
      modifies fiberList[control.fiber]
      ensures Valid() && (Snapshot(), r) == DoAllowSuspend(old(Snapshot()))
    {
      var table := fiberList[control.fiber];
      if table.suspensionDisallowed == 0 {
        return Raise(SuspensionAlreadyAllowed);
      }
      SetCounters(table.interruptionDisabled, table.suspensionDisallowed - 1);
      r := Done;
    }

    // ---------------------------------------------------------------- core.cpp

    /** `fiber_epilogue`: the running fiber has returned or raised. */
    method Finish(o: Outcome) returns (r: Reply)
      requires Valid() && CanRun(Snapshot())
      modifies this`control, this`fiberList, fiberList.Values, handles.Values
      ensures Valid() && (Snapshot(), r) == DoFinish(old(Snapshot()), o)
    {
      var me := control.fiber;
      assert DataWellFormed(Snapshot(), Me(Snapshot()));
      r := Suspended;
      match fiberList[me].joiner
      case Detached =>
        Delist();
      case NoJoiner =>
        FinishUnjoined(o);
      case Joined(j) =>
        FinishJoined(j, o);
    }

    /** The outcome waits for a join. */
    method FinishUnjoined(o: Outcome)
      requires Valid() && control.Active? && control.fiber in fiberList
      modifies this`control, fiberList[control.fiber]
      ensures Valid()
      ensures Snapshot() == Park(SetData(old(Snapshot()), old(control.fiber),
                              old(Snapshot()).fibers[old(control.fiber)].(status := Finished(o))))
    {
      var me := control.fiber;
      fiberList[me].status := Finished(o);
      control := Idle;
      OnlyFiber(me);
    }

    /** A detached fiber disappears from the list. */
    method Delist()
      requires Valid() && control.Active?
      modifies this`control, this`fiberList
      ensures Valid()
      ensures Snapshot() == old(Snapshot()).(control := Idle, fibers := old(Snapshot()).fibers - {old(control.fiber)})
    {
      var me := control.fiber;
      ghost var before := FiberView();
      fiberList := fiberList - {me};
      control := Idle;
      assert FiberView() == before - {me};
    }

    /** The joiner takes over at once, with what the finished fiber left. */
    method FinishJoined(j: Fiber, o: Outcome)
      requires Valid() && control.Active? && control.fiber in fiberList && j in fiberList
      requires var h := fiberList[control.fiber].userHandle; h.Some? ==> h.value in handles
      modifies this`control, fiberList.Values, handles.Values
      ensures Valid()
      ensures var s, me := old(Snapshot()), old(control.fiber);
              var fibers := s.fibers[me := s.fibers[me].(status := Finished(o))];
              var h := s.fibers[me].userHandle;
              Snapshot() == s.(control := Active(j, JoinArgs(o)),
                fibers := fibers[j := Runtime.SetInterrupter(fibers[j], NoInterrupter)],
                handles := if h.None? then s.handles else s.handles[h.value :=
                  s.handles[h.value].(fiber := None, interruptionCaught := Some(o == Raised(InterruptedError)))])
    {
      var h := fiberList[control.fiber].userHandle;
      SetFinished(o);
      if h.Some? {
        Satisfy(h.value, o == Raised(InterruptedError));
      }
      ResumeNow(j, JoinArgs(o), false);
    }

    method SetFinished(o: Outcome)
      requires Valid() && control.Active? && control.fiber in fiberList
      modifies fiberList[control.fiber]
      ensures Valid()
      ensures Snapshot() == SetData(old(Snapshot()), control.fiber,
                              old(Snapshot()).fibers[control.fiber].(status := Finished(o)))
    {
      fiberList[control.fiber].status := Finished(o);
      OnlyFiber(control.fiber);
    }

    /** The handle of a joined fiber learns how the fiber ended. */
    method Satisfy(h: HandleId, caught: bool)
      requires Valid() && h in handles
      modifies handles[h]
      ensures Valid()
      ensures var s := old(Snapshot());
              Snapshot() == s.(handles := s.handles[h := s.handles[h].(fiber := None, interruptionCaught := Some(caught))])
    {
      handles[h].fiber := None;
      handles[h].interruptionCaught := Some(caught);
      OnlyHandle(h);
    }

    /** `fiber_resume` up to the point where the fiber's own code goes on. */
    method ResumeNow(f: Fiber, args: Args, skipClearInterrupter: bool)
      requires Valid() && f in fiberList
      modifies this`control, fiberList[f]
      ensures Valid()
      ensures var s := old(Snapshot());
              var d := s.fibers[f];
              var d1 := if skipClearInterrupter then d else Runtime.SetInterrupter(d, NoInterrupter);
              Snapshot() == SetData(s, f, d1).(control := Active(f, args))
    {
      control := Active(f, args);
      if !skipClearInterrupter {
        fiberList[f].SetInterrupter(NoInterrupter);
      }
      OnlyFiber(f);
    }

    method PopFront() returns (next: Resume)
      requires Valid() && WellFormed(Snapshot()) && strand != []
      modifies this`strand
      ensures Valid() && next == old(strand)[0] && next.fiber in fiberList
      ensures Snapshot() == old(Snapshot()).(strand := old(strand)[1..])
    {
      next := strand[0];
      assert ResumeWellFormed(Snapshot(), next);
      strand := strand[1..];
    }

    /** The strand runs its oldest closure. */
    method RunNext() returns (r: Reply)
      requires Valid() && WellFormed(Snapshot()) && strand != []
      modifies this`control, this`strand, fiberList.Values
      ensures Valid() && (Snapshot(), r) == DoRunNext(old(Snapshot()))
    {
      var next := PopFront();
      ResumeNow(next.fiber, next.args, next.skipClearInterrupter);
      r := Done;
    }

    // ---------------------------------------------------------------- one step

    ghost predicate CanPerform(a: Action)
      reads this, fiberList.Values, handles.Values, mutexes.Values, rmutexes.Values, conds.Values, promises.Values
    {
      Valid() && WellFormed(Snapshot()) && Enabled(Snapshot(), a)
    }

    static predicate OnObject(a: Action) {
      !(a.Spawn? || a.Yield? || a.Join? || a.Detach? || a.GcHandle? || a.Interrupt? || a.Finish? || a.RunNext?)
    }

    method PerformNewLock(a: Action) returns (r: Reply)
      requires CanPerform(a) && (a.NewMutex? || a.NewRMutex?)
      modifies this
      ensures Valid() && (Snapshot(), r) == Runtime.Perform(old(Snapshot()), a)
    {
      r := Done;
      match a
      case NewMutex(m) => NewMutex(m);
      case NewRMutex(m) => NewRMutex(m);
    }

    method PerformNewWait(a: Action) returns (r: Reply)
      requires CanPerform(a) && (a.NewCond? || a.NewPromise?)
      modifies this
      ensures Valid() && (Snapshot(), r) == Runtime.Perform(old(Snapshot()), a)
    {
      r := Done;
      match a
      case NewCond(c) => NewCond(c);
      case NewPromise(p) => NewPromise(p);
    }

    method PerformOnMutex(a: Action) returns (r: Reply)
      requires CanPerform(a) && (a.MutexLock? || a.MutexTryLock? || a.MutexUnlock?)
      modifies this, mutexes.Values
      ensures Valid() && (Snapshot(), r) == Runtime.Perform(old(Snapshot()), a)
    {
      match a
      case MutexLock(m) => r := MutexLock(m);
      case MutexTryLock(m) => r := MutexTryLock(m);
      case MutexUnlock(m) => r := MutexUnlock(m);
    }

    method PerformOnRMutex(a: Action) returns (r: Reply)
      requires CanPerform(a) && (a.RMutexLock? || a.RMutexTryLock? || a.RMutexUnlock?)
      modifies this, rmutexes.Values
      ensures Valid() && (Snapshot(), r) == Runtime.Perform(old(Snapshot()), a)
    {
      ghost var s := Snapshot();
      match a
      case RMutexLock(m) =>
        assert Runtime.Perform(s, a) == DoRMutexLock(s, m);
        r := RMutexLock(m);
      case RMutexTryLock(m) =>
        assert Runtime.Perform(s, a) == DoRMutexTryLock(s, m);
        r := RMutexTryLock(m);
      case RMutexUnlock(m) =>
        assert Runtime.Perform(s, a) == DoRMutexUnlock(s, m);
        r := RMutexUnlock(m);
    }

    method PerformOnCond(a: Action) returns (r: Reply)
      requires CanPerform(a)
      requires a.CondWait? || a.NotifyOne? || a.NotifyAll?
      modifies this, fiberList.Values, mutexes.Values, conds.Values
      ensures Valid() && (Snapshot(), r) == Runtime.Perform(old(Snapshot()), a)
    {
      match a
      case CondWait(c, m) => r := CondWait(c, m);
      case NotifyOne(c) => r := NotifyOne(c);
      case NotifyAll(c) => r := NotifyAll(c);
    }

    method PerformOnPromise(a: Action) returns (r: Reply)
      requires CanPerform(a)
      requires a.SetValue? || a.SetError? || a.PromiseGc? || a.FutureGet?
      modifies this, fiberList.Values, promises.Values
      ensures Valid() && (Snapshot(), r) == Runtime.Perform(old(Snapshot()), a)
    {
      match a
      case SetValue(p, v) => r := PromiseSetValue(p, v);
      case SetError(p, v) => r := PromiseSetError(p, v);
      case PromiseGc(p) => r := PromiseGc(p);
      case FutureGet(p) => r := FutureGet(p);
    }

    method PerformOnFiber(a: Action) returns (r: Reply)
      requires CanPerform(a)
      requires !OnObject(a)
      requires a.Spawn? ==> nextFiber !in fiberList && nextFiber !in handles
      modifies this, fiberList.Values, handles.Values, conds.Values, promises.Values
      ensures Valid() && (Snapshot(), r) == Runtime.Perform(old(Snapshot()), a)
    {
      match a
      case Spawn => r := Spawn();
      case Yield => r := Yield();
      case Join(h) => r := Join(h);
      case Detach(h) => r := Detach(h);
      case GcHandle(h) => r := HandleGc(h);
      case Interrupt(h) => r := Interrupt(h);
      case Finish(o) => r := Finish(o);
      case RunNext => r := RunNext();
    }

    method PerformOnCounter(a: Action) returns (r: Reply)
      requires CanPerform(a)
      requires a.DisableInterruption? || a.RestoreInterruption? || a.ForbidSuspend? || a.AllowSuspend?
      modifies fiberList.Values
      ensures Valid() && (Snapshot(), r) == Runtime.Perform(old(Snapshot()), a)
    {
      match a
      case DisableInterruption => r := DisableInterruption();
      case RestoreInterruption => r := RestoreInterruption();
      case ForbidSuspend => r := ForbidSuspend();
      case AllowSuspend => r := AllowSuspend();
    }

    method PerformOnObject(a: Action) returns (r: Reply)
      requires CanPerform(a) && OnObject(a)
      modifies this, fiberList.Values, mutexes.Values, rmutexes.Values, conds.Values, promises.Values
      ensures Valid() && (Snapshot(), r) == Runtime.Perform(old(Snapshot()), a)
    {
      match a
      case NewMutex(_) | NewRMutex(_) => r := PerformNewLock(a);
      case NewCond(_) | NewPromise(_) => r := PerformNewWait(a);
      case MutexLock(_) | MutexTryLock(_) | MutexUnlock(_) => r := PerformOnMutex(a);
      case RMutexLock(_) | RMutexTryLock(_) | RMutexUnlock(_) => r := PerformOnRMutex(a);
      case CondWait(_, _) | NotifyOne(_) | NotifyAll(_) => r := PerformOnCond(a);
      case SetValue(_, _) | SetError(_, _) | PromiseGc(_) | FutureGet(_) => r := PerformOnPromise(a);
      case DisableInterruption | RestoreInterruption | ForbidSuspend | AllowSuspend => r := PerformOnCounter(a);
    }

    /** Whatever the program does, the objects keep the invariant of the step machine. */
    method Perform(a: Action) returns (r: Reply)
      requires Valid() && Coherent(Snapshot()) && Enabled(Snapshot(), a)
      modifies this, fiberList.Values, handles.Values, mutexes.Values, rmutexes.Values, conds.Values, promises.Values
      ensures Valid() && Coherent(Snapshot())
      ensures (Snapshot(), r) == Step(old(Snapshot()), a)
    {
      CoherentStep(Snapshot(), a);
      FreshName(Snapshot());
      if OnObject(a) {
        r := PerformOnObject(a);
      } else {
        r := PerformOnFiber(a);
      }
    }
  }
}
