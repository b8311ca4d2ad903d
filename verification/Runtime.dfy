/**
  The fiber runtime of one Lua VM as a step machine.

  One fiber runs at a time. Every other fiber is parked in the wait list of a
  mutex, a recursive mutex, a condition variable or a future, waits in the join
  slot of another fiber, is named by a resume closure posted to the strand, or
  has finished. `Step` performs one call made by the running fiber, one
  finalizer run by the collector, or one closure run by the strand.
 */
module Runtime {
  import opened Wrappers
  import opened SizeT
  import opened Sequences

  type Fiber = nat      // a lua_State* that is a fiber
  type HandleId = nat   // a fiber handle; named after the fiber it was created for
  type MutexId = nat
  type RMutexId = nat
  type CondId = nat
  type PromiseId = nat  // the shared state behind one promise and its future

  // Lua values and error objects, as far as the runtime tells them apart.
  datatype Value = Nil | InterruptedError | Object(id: nat)

  datatype Outcome = Returned(value: Value) | Raised(error: Value)

  datatype Errc =
    | EINVAL | EDEADLK | EPERM | EOVERFLOW
    | ForbidSuspendBlock | Interrupted | BrokenPromise | PromiseAlreadySatisfied
    | InterruptionAlreadyAllowed | SuspensionAlreadyAllowed

  // What a resumed fiber finds on its stack.
  datatype Args =
    | NoArgs
    | Failure(errc: Errc)
    | Ready(value: Value)          // nil, value
    | Failed(error: Value)         // error
    | JoinInterrupted              // false, errc::interrupted
    | JoinOk(result: Value)        // true, results
    | JoinError(reason: Value)     // false, error
    | JoinCaught                   // true: the target died of an interruption

  datatype Reply =
    | Done
    | Bool(b: bool)
    | Got(value: Value)
    | JoinReply(args: Args)
    | Suspended
    | Raise(errc: Errc)
    | Throw(error: Value)
    | NotEnabled                   // the program cannot perform the action now

  // The closure in FiberDataIndex::INTERRUPTER, with its upvalues.
  datatype Interrupter =
    | NoInterrupter
    | CondInterrupter(cond: CondId, waiter: Fiber)
    | FutureInterrupter(promise: PromiseId, waiter: Fiber)
    | JoinInterrupter(handle: HandleId, waiter: Fiber, target: Fiber)

  datatype Joiner = NoJoiner | Detached | Joined(fiber: Fiber)   // nil, false, thread

  // FiberDataIndex::STATUS together with what the finished fiber left on its stack.
  datatype Status = Running | Finished(outcome: Outcome)

  datatype FiberData = FiberData(
    joiner: Joiner,
    status: Status,
    suspensionDisallowed: nat,
    interruptionDisabled: nat,
    interrupted: bool,
    interrupter: Interrupter,
    userHandle: Option<HandleId>)

  datatype HandleData = HandleData(
    fiber: Option<Fiber>,
    joinInProgress: bool,
    interruptionCaught: Option<bool>)

  datatype MutexData = MutexData(locked: bool, pending: seq<Fiber>)

  datatype RMutexData = RMutexData(owner: Option<Fiber>, nlocked: nat, pending: seq<Fiber>)

  datatype FutureState = Empty | Broken | ValueReady(value: Value) | ErrorReady(error: Value)

  // `promiseAlive` holds until the promise object has been finalized.
  datatype PromiseData = PromiseData(state: FutureState, waiters: seq<Fiber>, promiseAlive: bool)

  // A closure posted to the strand: it calls fiber_resume.
  datatype Resume = Resume(fiber: Fiber, args: Args, skipClearInterrupter: bool)

  datatype Control = Idle | Active(fiber: Fiber, args: Args)

  datatype State = State(
    control: Control,
    strand: seq<Resume>,
    fibers: map<Fiber, FiberData>,     // the registry table under fiber_list_key
    handles: map<HandleId, HandleData>,
    mutexes: map<MutexId, MutexData>,
    rmutexes: map<RMutexId, RMutexData>,
    conds: map<CondId, seq<Fiber>>,
    promises: map<PromiseId, PromiseData>,
    nextFiber: Fiber)

  datatype Action =
    | Spawn
    | Yield
    | Join(handle: HandleId)
    | Detach(handle: HandleId)
    | GcHandle(handle: HandleId)
    | Interrupt(handle: HandleId)
    | Finish(outcome: Outcome)
    | DisableInterruption | RestoreInterruption
    | ForbidSuspend | AllowSuspend
    | NewMutex(mutex: MutexId)
    | MutexLock(mutex: MutexId) | MutexTryLock(mutex: MutexId) | MutexUnlock(mutex: MutexId)
    | NewRMutex(rmutex: RMutexId)
    | RMutexLock(rmutex: RMutexId) | RMutexTryLock(rmutex: RMutexId) | RMutexUnlock(rmutex: RMutexId)
    | NewCond(cond: CondId)
    | CondWait(cond: CondId, mutex: MutexId) | NotifyOne(cond: CondId) | NotifyAll(cond: CondId)
    | NewPromise(promise: PromiseId)
    | SetValue(promise: PromiseId, value: Value) | SetError(promise: PromiseId, value: Value)
    | PromiseGc(promise: PromiseId)
    | FutureGet(promise: PromiseId)
    | RunNext

  function FreshData(joiner: Joiner): FiberData {
    FiberData(joiner, Running, 0, 0, false, NoInterrupter, None)
  }

  /** The main fiber, born detached, runs alone. */
  function Init(): State {
    State(Active(0, NoArgs), [], map[0 := FreshData(Detached)], map[], map[], map[], map[], map[], 1)
  }

  // Every name that a step follows leads to an object.
  ghost predicate WellFormed(s: State) {
    && (s.control.Active? ==>
          s.control.fiber in s.fibers && s.fibers[s.control.fiber].status.Running?)
    && (forall r {:trigger ResumeWellFormed(s, r)} :: r in s.strand ==> ResumeWellFormed(s, r))
    && (forall h {:trigger HandleWellFormed(s, h)} :: h in s.handles ==> HandleWellFormed(s, h))
    && (forall f {:trigger DataWellFormed(s, s.fibers[f])} :: f in s.fibers ==> DataWellFormed(s, s.fibers[f]))
  }

  ghost predicate ResumeWellFormed(s: State, r: Resume) {
    r.fiber in s.fibers
  }

  ghost predicate HandleWellFormed(s: State, h: HandleId) {
    h in s.handles && (s.handles[h].fiber.Some? ==> s.handles[h].fiber.value in s.fibers)
  }

  ghost predicate DataWellFormed(s: State, d: FiberData) {
    && InterrupterWellFormed(s, d.interrupter)
    && (d.status.Running? && d.joiner.Joined? ==>
          && d.joiner.fiber in s.fibers
          && (d.userHandle.Some? ==> d.userHandle.value in s.handles))
  }

  ghost predicate InterrupterWellFormed(s: State, i: Interrupter) {
    match i
    case NoInterrupter => true
    case CondInterrupter(c, f) => c in s.conds && f in s.fibers
    case FutureInterrupter(p, f) => p in s.promises && f in s.fibers
    case JoinInterrupter(h, f, t) => h in s.handles && f in s.fibers && t in s.fibers
  }

  ghost predicate CanRun(s: State) {
    WellFormed(s) && s.control.Active?
  }

  // ---------------------------------------------------------------- shared pieces

  function Post(s: State, r: Resume): State {
    s.(strand := s.strand + [r])
  }

  function Park(s: State): State {
    s.(control := Idle)
  }

  function SetData(s: State, f: Fiber, d: FiberData): State {
    s.(fibers := s.fibers[f := d])
  }

  /** `set_interrupter`: writes the slot only while interruption is enabled. */
  function SetInterrupter(d: FiberData, i: Interrupter): FiberData {
    if d.interruptionDisabled > 0 then d else d.(interrupter := i)
  }

  /** `unsafe_can_suspend`: the error that stops the running fiber from suspending here. */
  function SuspendError(d: FiberData): Option<Errc> {
    if d.suspensionDisallowed != 0 then Some(ForbidSuspendBlock)
    else if d.interruptionDisabled > 0 then None
    else if d.interrupted then Some(Interrupted)
    else None
  }

  /** `unsafe_can_suspend2`, for calls that are not interruption points. */
  function SuspendErrorIgnoringInterruption(d: FiberData): Option<Errc> {
    if d.suspensionDisallowed != 0 then Some(ForbidSuspendBlock) else None
  }

  function Me(s: State): FiberData
    requires CanRun(s)
  {
    s.fibers[s.control.fiber]
  }

  function PostAll(s: State, q: seq<Fiber>, args: Args): State {
    s.(strand := s.strand + seq(|q|, i requires 0 <= i < |q| => Resume(q[i], args, false)))
  }

  // ---------------------------------------------------------------- fiber.cpp, core.cpp

  function DoSpawn(s: State): (State, Reply)
    requires CanRun(s)
  {
    var f := s.nextFiber;
    var s1 := Post(SetData(s, f, FreshData(NoJoiner)), Resume(f, NoArgs, true));
    (s1.(handles := s1.handles[f := HandleData(Some(f), false, None)], nextFiber := f + 1), Done)
  }

  function DoYield(s: State): (State, Reply)
    requires CanRun(s)
  {
    var e := SuspendError(Me(s));
    if e.Some? then (s, Raise(e.value))
    else (Park(Post(s, Resume(s.control.fiber, NoArgs, true))), Suspended)
  }

  /** What a join hands over for an outcome. */
  function JoinArgs(o: Outcome): Args {
    match o
    case Returned(v) => JoinOk(v)
    case Raised(e) => if e == InterruptedError then JoinCaught else JoinError(e)
  }

  function DoJoin(s: State, h: HandleId): (State, Reply)
    requires CanRun(s) && h in s.handles
  {
    var me := s.control.fiber;
    var e := SuspendError(Me(s));
    var handle := s.handles[h];
    assert HandleWellFormed(s, h);
    if e.Some? then (s, Raise(e.value))
    else if handle.fiber.None? || handle.joinInProgress then (s, Raise(EINVAL))
    else if handle.fiber.value == me then (s, Raise(EDEADLK))
    else
      var t := handle.fiber.value;
      match s.fibers[t].status
      case Running =>
        var s1 := SetData(s, t, s.fibers[t].(joiner := Joined(me), userHandle := Some(h)));
        var s2 := SetData(s1, me, SetInterrupter(s1.fibers[me], JoinInterrupter(h, me, t)));
        (Park(s2.(handles := s2.handles[h := handle.(joinInProgress := true)])), Suspended)
      case Finished(o) =>
        var s1 := s.(fibers := s.fibers - {t});
        var caught := o == Raised(InterruptedError);
        (s1.(handles := s1.handles[h := handle.(fiber := None, interruptionCaught := Some(caught))]),
         JoinReply(JoinArgs(o)))
  }

  /** The common part of detach and of the handle's finalizer. */
  function Release(s: State, h: HandleId, t: Fiber): State
    requires WellFormed(s) && h in s.handles && t in s.fibers
  {
    var s1 := if s.fibers[t].status.Running?
              then SetData(s, t, s.fibers[t].(joiner := Detached))
              else s.(fibers := s.fibers - {t});
    s1.(handles := s1.handles[h := s1.handles[h].(fiber := None)])
  }

  function DoDetach(s: State, h: HandleId): (State, Reply)
    requires CanRun(s) && h in s.handles
  {
    var handle := s.handles[h];
    assert HandleWellFormed(s, h);
    if handle.fiber.None? || handle.joinInProgress then (s, Raise(EINVAL))
    else (Release(s, h, handle.fiber.value), Done)
  }

  function DoGcHandle(s: State, h: HandleId): (State, Reply)
    requires CanRun(s) && h in s.handles
  {
    var handle := s.handles[h];
    assert HandleWellFormed(s, h);
    if handle.fiber.None? || handle.joinInProgress then (s, Done)
    else (Release(s, h, handle.fiber.value), Done)
  }

  /** Calls an interrupter closure. */
  function CallInterrupter(s: State, i: Interrupter): State
    requires InterrupterWellFormed(s, i)
  {
    match i
    case NoInterrupter => s
    case CondInterrupter(c, f) =>
      if f !in s.conds[c] then s   // notified before the interruption
      else Post(s.(conds := s.conds[c := Erase(s.conds[c], f)]), Resume(f, Failure(Interrupted), false))
    case FutureInterrupter(p, f) =>
      var d := s.promises[p];
      if f !in d.waiters then s    // satisfied before the interruption
      else Post(s.(promises := s.promises[p := d.(waiters := Erase(d.waiters, f))]),
                Resume(f, Failure(Interrupted), false))
    case JoinInterrupter(h, f, t) =>
      var s1 := SetData(s, t, s.fibers[t].(joiner := NoJoiner, userHandle := None));
      Post(s1.(handles := s1.handles[h := s1.handles[h].(joinInProgress := false)]),
           Resume(f, JoinInterrupted, false))
  }

  function DoInterrupt(s: State, h: HandleId): (State, Reply)
    requires CanRun(s) && h in s.handles
  {
    var handle := s.handles[h];
    assert HandleWellFormed(s, h);
    if handle.fiber.None? then (s, Done)
    else
      var t := handle.fiber.value;
      var s1 := SetData(s, t, s.fibers[t].(interrupted := true));
      if t == s.control.fiber then (s1, Done)
      else
        var i := s1.fibers[t].interrupter;
        if i.NoInterrupter? then (s1, Done)
        else
          assert DataWellFormed(s, s.fibers[t]);
          var s2 := CallInterrupter(s1, i);
          (SetData(s2, t, s2.fibers[t].(interrupter := NoInterrupter)), Done)
  }

  /** `fiber_epilogue` for a fiber that returned or raised. */
  function DoFinish(s: State, o: Outcome): (State, Reply)
    requires CanRun(s)
  {
    var me := s.control.fiber;
    var d := s.fibers[me];
    assert DataWellFormed(s, d);
    match d.joiner
    case Detached => (Park(s.(fibers := s.fibers - {me})), Suspended)
    case NoJoiner => (Park(SetData(s, me, d.(status := Finished(o)))), Suspended)
    case Joined(j) =>
      var fibers := s.fibers[me := d.(status := Finished(o))];
      var handles := if d.userHandle.None? then s.handles else
        var h := d.userHandle.value;
        s.handles[h := s.handles[h].(fiber := None, interruptionCaught := Some(o == Raised(InterruptedError)))];
      // the joiner is resumed here, without going through the strand
      (s.(control := Active(j, JoinArgs(o)), handles := handles,
          fibers := fibers[j := SetInterrupter(fibers[j], NoInterrupter)]), Suspended)
  }

  function DoDisableInterruption(s: State): (State, Reply)
    requires CanRun(s)
  {
    var d := Me(s);
    (SetData(s, s.control.fiber, d.(interruptionDisabled := d.interruptionDisabled + 1)), Done)
  }

  function DoRestoreInterruption(s: State): (State, Reply)
    requires CanRun(s)
  {
    var d := Me(s);
    if d.interruptionDisabled == 0 then (s, Raise(InterruptionAlreadyAllowed))
    else (SetData(s, s.control.fiber, d.(interruptionDisabled := d.interruptionDisabled - 1)), Done)
  }

  function DoForbidSuspend(s: State): (State, Reply)
    requires CanRun(s)
  {
    var d := Me(s);
    (SetData(s, s.control.fiber, d.(suspensionDisallowed := d.suspensionDisallowed + 1)), Done)
  }

  function DoAllowSuspend(s: State): (State, Reply)
    requires CanRun(s)
  {
    var d := Me(s);
    if d.suspensionDisallowed == 0 then (s, Raise(SuspensionAlreadyAllowed))
    else (SetData(s, s.control.fiber, d.(suspensionDisallowed := d.suspensionDisallowed - 1)), Done)
  }

  // ---------------------------------------------------------------- mutex.cpp

  function DoMutexLock(s: State, m: MutexId): (State, Reply)
    requires CanRun(s) && m in s.mutexes
  {
    var e := SuspendErrorIgnoringInterruption(Me(s));
    var handle := s.mutexes[m];
    if e.Some? then (s, Raise(e.value))
    else if handle.locked then
      (Park(s.(mutexes := s.mutexes[m := handle.(pending := handle.pending + [s.control.fiber])])), Suspended)
    else (s.(mutexes := s.mutexes[m := handle.(locked := true)]), Done)
  }

  function DoMutexTryLock(s: State, m: MutexId): (State, Reply)
    requires CanRun(s) && m in s.mutexes
  {
    var handle := s.mutexes[m];
    if handle.locked then (s, Bool(false))
    else (s.(mutexes := s.mutexes[m := handle.(locked := true)]), Bool(true))
  }

  /** Unlocks, or keeps the mutex locked on behalf of the head of the queue. */
  function HandOn(s: State, m: MutexId): State
    requires m in s.mutexes
  {
    var handle := s.mutexes[m];
    if handle.pending == [] then s.(mutexes := s.mutexes[m := handle.(locked := false)])
    else Post(s.(mutexes := s.mutexes[m := handle.(pending := handle.pending[1..])]),
              Resume(handle.pending[0], NoArgs, true))
  }

  function DoMutexUnlock(s: State, m: MutexId): (State, Reply)
    requires CanRun(s) && m in s.mutexes
  {
    if !s.mutexes[m].locked then (s, Raise(EPERM)) else (HandOn(s, m), Done)
  }

  // ---------------------------------------------------------------- recursive_mutex.cpp

  function DoRMutexLock(s: State, m: RMutexId): (State, Reply)
    requires CanRun(s) && m in s.rmutexes
  {
    var e := SuspendErrorIgnoringInterruption(Me(s));
    var handle := s.rmutexes[m];
    var me := s.control.fiber;
    if e.Some? then (s, Raise(e.value))
    else if handle.owner == Some(me) then
      if handle.nlocked == SIZE_MAX then (s, Raise(EOVERFLOW))
      else (s.(rmutexes := s.rmutexes[m := handle.(nlocked := handle.nlocked + 1)]), Done)
    else if handle.owner.Some? then
      (Park(s.(rmutexes := s.rmutexes[m := handle.(pending := handle.pending + [me])])), Suspended)
    else (s.(rmutexes := s.rmutexes[m := handle.(owner := Some(me), nlocked := 1)]), Done)
  }

  function DoRMutexTryLock(s: State, m: RMutexId): (State, Reply)
    requires CanRun(s) && m in s.rmutexes
  {
    var handle := s.rmutexes[m];
    var me := s.control.fiber;
    if handle.owner == Some(me) then
      if handle.nlocked == SIZE_MAX then (s, Raise(EOVERFLOW))
      else (s.(rmutexes := s.rmutexes[m := handle.(nlocked := handle.nlocked + 1)]), Bool(true))
    else if handle.owner.Some? then (s, Bool(false))
    else (s.(rmutexes := s.rmutexes[m := handle.(owner := Some(me), nlocked := 1)]), Bool(true))
  }

  /** `--x` on a std::size_t. */
  function DoRMutexUnlock(s: State, m: RMutexId): (State, Reply)
    requires CanRun(s) && m in s.rmutexes
  {
    var handle := s.rmutexes[m];
    if handle.owner != Some(s.control.fiber) then (s, Raise(EPERM))
    else
      var h1 := handle.(nlocked := Decrement(handle.nlocked));
      if h1.nlocked != 0 then (s.(rmutexes := s.rmutexes[m := h1]), Done)
      else if h1.pending == [] then (s.(rmutexes := s.rmutexes[m := h1.(owner := None)]), Done)
      else
        var next := h1.pending[0];
        (Post(s.(rmutexes := s.rmutexes[m := RMutexData(Some(next), 1, h1.pending[1..])]),
              Resume(next, NoArgs, true)), Done)
  }

  // ---------------------------------------------------------------- condition_variable.cpp

  function DoCondWait(s: State, c: CondId, m: MutexId): (State, Reply)
    requires CanRun(s) && c in s.conds && m in s.mutexes
  {
    var me := s.control.fiber;
    if !s.mutexes[m].locked then (s, Raise(EPERM))
    else
      var e := SuspendError(Me(s));
      if e.Some? then (s, Raise(e.value))
      else
        var s1 := SetData(s, me, SetInterrupter(s.fibers[me], CondInterrupter(c, me)));
        var s2 := s1.(conds := s1.conds[c := s1.conds[c] + [me]]);
        (Park(HandOn(s2, m)), Suspended)
  }

  function DoNotifyOne(s: State, c: CondId): (State, Reply)
    requires CanRun(s) && c in s.conds
  {
    var pending := s.conds[c];
    if pending == [] then (s, Done)
    else (Post(s.(conds := s.conds[c := pending[1..]]), Resume(pending[0], NoArgs, false)), Done)
  }

  function DoNotifyAll(s: State, c: CondId): (State, Reply)
    requires CanRun(s) && c in s.conds
  {
    (PostAll(s, s.conds[c], NoArgs).(conds := s.conds[c := []]), Done)
  }

  // ---------------------------------------------------------------- future.cpp

  function DoSetValue(s: State, p: PromiseId, v: Value): (State, Reply)
    requires CanRun(s) && p in s.promises
  {
    var d := s.promises[p];
    if d.state != Empty then (s, Raise(PromiseAlreadySatisfied))
    else (PostAll(s, d.waiters, Ready(v)).(promises :=
            s.promises[p := d.(state := ValueReady(v), waiters := [])]), Done)
  }

  function DoSetError(s: State, p: PromiseId, v: Value): (State, Reply)
    requires CanRun(s) && p in s.promises
  {
    var d := s.promises[p];
    if v == Nil then (s, Raise(EINVAL))
    else if d.state != Empty then (s, Raise(PromiseAlreadySatisfied))
    else (PostAll(s, d.waiters, Failed(v)).(promises :=
            s.promises[p := d.(state := ErrorReady(v), waiters := [])]), Done)
  }

  /** The promise's finalizer: the state becomes broken whatever it was. */
  function DoPromiseGc(s: State, p: PromiseId): (State, Reply)
    requires CanRun(s) && p in s.promises
  {
    var d := s.promises[p];
    (PostAll(s, d.waiters, Failure(BrokenPromise)).(promises :=
       s.promises[p := PromiseData(Broken, [], false)]), Done)
  }

  function DoFutureGet(s: State, p: PromiseId): (State, Reply)
    requires CanRun(s) && p in s.promises
  {
    var me := s.control.fiber;
    var e := SuspendError(Me(s));
    var d := s.promises[p];
    if e.Some? then (s, Raise(e.value))
    else match d.state
      case Broken => (s, Raise(BrokenPromise))
      case ValueReady(v) => (s, Got(v))
      case ErrorReady(v) => (s, Throw(v))
      case Empty =>
        var s1 := SetData(s, me, SetInterrupter(s.fibers[me], FutureInterrupter(p, me)));
        (Park(s1.(promises := s1.promises[p := d.(waiters := d.waiters + [me])])), Suspended)
  }

  // ---------------------------------------------------------------- the strand

  /** Runs the oldest posted closure: `fiber_resume`. */
  function DoRunNext(s: State): (State, Reply)
    requires WellFormed(s) && s.strand != []
  {
    var r := s.strand[0];
    assert ResumeWellFormed(s, r);
    var d := s.fibers[r.fiber];
    var d1 := if r.skipClearInterrupter then d else SetInterrupter(d, NoInterrupter);
    (SetData(s, r.fiber, d1).(strand := s.strand[1..], control := Active(r.fiber, r.args)), Done)
  }

  /** Whether the program can perform the action now: who runs, and which objects exist. */
  predicate Enabled(s: State, a: Action) {
    if a.RunNext? then s.control.Idle? && s.strand != []
    else (s.control.Active? &&
      match a
      case Join(h) => h in s.handles
      case Detach(h) => h in s.handles
      case GcHandle(h) => h in s.handles
      case Interrupt(h) => h in s.handles
      case NewMutex(m) => m !in s.mutexes
      case MutexLock(m) => m in s.mutexes
      case MutexTryLock(m) => m in s.mutexes
      case MutexUnlock(m) => m in s.mutexes
      case NewRMutex(m) => m !in s.rmutexes
      case RMutexLock(m) => m in s.rmutexes
      case RMutexTryLock(m) => m in s.rmutexes
      case RMutexUnlock(m) => m in s.rmutexes
      case NewCond(c) => c !in s.conds
      case CondWait(c, m) => c in s.conds && m in s.mutexes
      case NotifyOne(c) => c in s.conds
      case NotifyAll(c) => c in s.conds
      case NewPromise(p) => p !in s.promises
      case SetValue(p, _) => p in s.promises && s.promises[p].promiseAlive
      case SetError(p, _) => p in s.promises && s.promises[p].promiseAlive
      case PromiseGc(p) => p in s.promises && s.promises[p].promiseAlive
      case FutureGet(p) => p in s.promises
      case _ => true)
  }

  function Perform(s: State, a: Action): (State, Reply)
    requires WellFormed(s) && Enabled(s, a)
  {
    match a
    case Spawn => DoSpawn(s)
    case Yield => DoYield(s)
    case Join(h) => DoJoin(s, h)
    case Detach(h) => DoDetach(s, h)
    case GcHandle(h) => DoGcHandle(s, h)
    case Interrupt(h) => DoInterrupt(s, h)
    case Finish(o) => DoFinish(s, o)
    case DisableInterruption => DoDisableInterruption(s)
    case RestoreInterruption => DoRestoreInterruption(s)
    case ForbidSuspend => DoForbidSuspend(s)
    case AllowSuspend => DoAllowSuspend(s)
    case NewMutex(m) => (s.(mutexes := s.mutexes[m := MutexData(false, [])]), Done)
    case MutexLock(m) => DoMutexLock(s, m)
    case MutexTryLock(m) => DoMutexTryLock(s, m)
    case MutexUnlock(m) => DoMutexUnlock(s, m)
    case NewRMutex(m) => (s.(rmutexes := s.rmutexes[m := RMutexData(None, 0, [])]), Done)
    case RMutexLock(m) => DoRMutexLock(s, m)
    case RMutexTryLock(m) => DoRMutexTryLock(s, m)
    case RMutexUnlock(m) => DoRMutexUnlock(s, m)
    case NewCond(c) => (s.(conds := s.conds[c := []]), Done)
    case CondWait(c, m) => DoCondWait(s, c, m)
    case NotifyOne(c) => DoNotifyOne(s, c)
    case NotifyAll(c) => DoNotifyAll(s, c)
    case NewPromise(p) => (s.(promises := s.promises[p := PromiseData(Empty, [], true)]), Done)
    case SetValue(p, v) => DoSetValue(s, p, v)
    case SetError(p, v) => DoSetError(s, p, v)
    case PromiseGc(p) => DoPromiseGc(s, p)
    case FutureGet(p) => DoFutureGet(s, p)
    case RunNext => DoRunNext(s)
  }

  /** One step. An action that is not enabled leaves the state alone. */
  ghost function Step(s: State, a: Action): (State, Reply) {
    if WellFormed(s) && Enabled(s, a) then Perform(s, a) else (s, NotEnabled)
  }

  ghost function Next(s: State, a: Action): State {
    Step(s, a).0
  }

  /** The state after a run. */
  ghost function Exec(s: State, run: seq<Action>): State
    decreases |run|
  {
    if run == [] then s else Exec(Next(s, run[0]), run[1..])
  }
}
