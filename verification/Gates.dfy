/** Who may suspend and who may be interrupted, told from the calls a fiber has made. */
module Gates {
  import opened Wrappers
  import opened Runtime
  import opened Placement
  import opened Invariant
  import opened Runs
  import opened Traces
  import opened Outcomes

  // ---------------------------------------------------------------- counting calls

  /** `f` makes this call, and it does what it is asked to. */
  ghost predicate Calls(s: State, a: Action, f: Fiber) {
    s.control.Active? && s.control.fiber == f && Step(s, a).1 == Done
  }

  function One(b: bool): int {
    if b then 1 else 0
  }

  /** How many levels of forbidden suspension the call puts on `f`, or takes away. */
  ghost function Forbidden(s: State, a: Action, f: Fiber): int {
    One(a.ForbidSuspend? && Calls(s, a, f)) - One(a.AllowSuspend? && Calls(s, a, f))
  }

  /** The same for levels of disabled interruption. */
  ghost function Disabled(s: State, a: Action, f: Fiber): int {
    One(a.DisableInterruption? && Calls(s, a, f)) - One(a.RestoreInterruption? && Calls(s, a, f))
  }

  /** Somebody interrupts `f` through its handle. */
  ghost predicate Strikes(s: State, a: Action, f: Fiber) {
    a.Interrupt? && Step(s, a).1 == Done && a.handle in s.handles && s.handles[a.handle].fiber == Some(f)
  }

  ghost function ForbiddenIn(s: State, run: seq<Action>, f: Fiber): int
    decreases |run|
  {
    if run == [] then 0 else Forbidden(s, run[0], f) + ForbiddenIn(Next(s, run[0]), run[1..], f)
  }

  ghost function DisabledIn(s: State, run: seq<Action>, f: Fiber): int
    decreases |run|
  {
    if run == [] then 0 else Disabled(s, run[0], f) + DisabledIn(Next(s, run[0]), run[1..], f)
  }

  ghost predicate StruckIn(s: State, run: seq<Action>, f: Fiber)
    decreases |run|
  {
    run != [] && (Strikes(s, run[0], f) || StruckIn(Next(s, run[0]), run[1..], f))
  }

  // ---------------------------------------------------------------- what a step does to the counters

  /** The three fields of `f` that count here. */
  datatype Counters = Counters(forbidden: int, disabled: int, struck: bool)

  function CountersOf(s: State, f: Fiber): Counters {
    if f !in s.fibers then Counters(0, 0, false)
    else
      var d := s.fibers[f];
      Counters(d.suspensionDisallowed, d.interruptionDisabled, d.interrupted)
  }

  ghost predicate CountersMove(s: State, a: Action, f: Fiber, s': State) {
    f in s'.fibers ==>
      CountersOf(s', f) == Counters(CountersOf(s, f).forbidden + Forbidden(s, a, f),
                                    CountersOf(s, f).disabled + Disabled(s, a, f),
                                    CountersOf(s, f).struck || Strikes(s, a, f))
  }

  /** The counters of `f` are as they were, if it is still listed. */
  ghost predicate SameCounters(s: State, s': State, f: Fiber) {
    f in s'.fibers ==> CountersOf(s', f) == CountersOf(s, f)
  }

  lemma SchedulingCounters(s: State, f: Fiber)
    requires CanRun(s) && s.nextFiber !in s.fibers
    ensures SameCounters(s, DoSpawn(s).0, f) && SameCounters(s, DoYield(s).0, f)
  {}

  lemma ReleaseCounters(s: State, h: HandleId, f: Fiber)
    requires CanRun(s) && h in s.handles
    ensures SameCounters(s, DoDetach(s, h).0, f) && SameCounters(s, DoGcHandle(s, h).0, f)
  {
    assert HandleWellFormed(s, h);
  }

  lemma JoinCounters(s: State, h: HandleId, f: Fiber)
    requires CanRun(s) && h in s.handles
    ensures SameCounters(s, DoJoin(s, h).0, f)
  {
    assert HandleWellFormed(s, h);
  }

  lemma FinishCounters(s: State, o: Outcome, f: Fiber)
    requires CanRun(s)
    ensures SameCounters(s, DoFinish(s, o).0, f)
  {
    assert DataWellFormed(s, Me(s));
  }

  lemma RunNextCounters(s: State, f: Fiber)
    requires WellFormed(s) && s.strand != []
    ensures SameCounters(s, DoRunNext(s).0, f)
  {
    assert ResumeWellFormed(s, s.strand[0]);
  }

  lemma InterrupterCounters(s: State, i: Interrupter, f: Fiber)
    requires InterrupterWellFormed(s, i)
    ensures SameCounters(s, CallInterrupter(s, i), f) && CallInterrupter(s, i).fibers.Keys == s.fibers.Keys
  {}

  lemma InterruptCounters(s: State, h: HandleId, f: Fiber)
    requires CanRun(s) && h in s.handles
    ensures f in DoInterrupt(s, h).0.fibers ==>
              CountersOf(DoInterrupt(s, h).0, f) ==
                CountersOf(s, f).(struck := CountersOf(s, f).struck || s.handles[h].fiber == Some(f))
  {
    assert HandleWellFormed(s, h);
    if s.handles[h].fiber.Some? {
      var t := s.handles[h].fiber.value;
      assert DataWellFormed(s, s.fibers[t]);
      InterrupterCounters(SetData(s, t, s.fibers[t].(interrupted := true)), s.fibers[t].interrupter, f);
    }
  }

  lemma WaitCounters(s: State, a: Action, f: Fiber)
    requires CanRun(s) && Enabled(s, a) && (a.CondWait? || a.FutureGet?)
    ensures SameCounters(s, Perform(s, a).0, f)
  {}

  lemma LockCounters(s: State, a: Action)
    requires CanRun(s) && Enabled(s, a) && !OnFibers(a)
    requires !a.Interrupt? && !a.RunNext? && !a.CondWait? && !a.FutureGet?
    ensures Perform(s, a).0.fibers == s.fibers
  {
    if OnRMutex(a) {
      RMutexFrame(s, a);
    }
  }

  lemma OwnInterruption(s: State, f: Fiber)
    requires CanRun(s)
    ensures CountersMove(s, DisableInterruption, f, Next(s, DisableInterruption))
    ensures CountersMove(s, RestoreInterruption, f, Next(s, RestoreInterruption))
  {
    assert Step(s, DisableInterruption) == DoDisableInterruption(s);
    assert Step(s, RestoreInterruption) == DoRestoreInterruption(s);
  }

  lemma OwnSuspension(s: State, f: Fiber)
    requires CanRun(s)
    ensures CountersMove(s, ForbidSuspend, f, Next(s, ForbidSuspend))
    ensures CountersMove(s, AllowSuspend, f, Next(s, AllowSuspend))
  {
    assert Step(s, ForbidSuspend) == DoForbidSuspend(s);
    assert Step(s, AllowSuspend) == DoAllowSuspend(s);
  }

  lemma OwnCounters(s: State, a: Action, f: Fiber)
    requires CanRun(s) && !Other(a) && !a.Interrupt?
    ensures CountersMove(s, a, f, Next(s, a))
  {
    OwnInterruption(s, f);
    OwnSuspension(s, f);
  }

  /** Calls that are not about counters or interruption. */
  ghost predicate Other(a: Action) {
    !a.DisableInterruption? && !a.RestoreInterruption? && !a.ForbidSuspend? && !a.AllowSuspend? && !a.Interrupt?
  }

  lemma OtherCounters(s: State, a: Action, f: Fiber)
    requires WellFormed(s) && Enabled(s, a) && Other(a) && s.nextFiber !in s.fibers
    ensures SameCounters(s, Perform(s, a).0, f)
  {
    match a
    case Spawn => SchedulingCounters(s, f);
    case Yield => SchedulingCounters(s, f);
    case Join(h) => JoinCounters(s, h, f);
    case Detach(h) => ReleaseCounters(s, h, f);
    case GcHandle(h) => ReleaseCounters(s, h, f);
    case Finish(o) => FinishCounters(s, o, f);
    case RunNext => RunNextCounters(s, f);
    case CondWait(_, _) => WaitCounters(s, a, f);
    case FutureGet(_) => WaitCounters(s, a, f);
    case _ => LockCounters(s, a);
  }

  lemma OtherMoves(s: State, a: Action, f: Fiber)
    requires SameCounters(s, Next(s, a), f) && Other(a)
    ensures CountersMove(s, a, f, Next(s, a))
  {}

  lemma InterruptMoves(s: State, h: HandleId, f: Fiber)
    requires CanRun(s) && h in s.handles
    ensures CountersMove(s, Interrupt(h), f, Next(s, Interrupt(h)))
  {
    assert Step(s, Interrupt(h)) == DoInterrupt(s, h);
    InterruptCounters(s, h, f);
    InterruptAnswers(s, h);
  }

  lemma InterruptAnswers(s: State, h: HandleId)
    requires CanRun(s) && h in s.handles
    ensures DoInterrupt(s, h).1 == Done
  {}

  lemma IdleMoves(s: State, a: Action, f: Fiber)
    requires !Enabled(s, a)
    ensures CountersMove(s, a, f, Next(s, a))
  {
    assert Step(s, a) == (s, NotEnabled);
  }

  lemma CountersStep(s: State, a: Action, f: Fiber)
    requires Coherent(s)
    ensures CountersMove(s, a, f, Next(s, a))
  {
    CoherentWellFormed(s);
    NamesBelow(s);
    if !Enabled(s, a) {
      IdleMoves(s, a, f);
    } else if a.Interrupt? {
      InterruptMoves(s, a.handle, f);
    } else if Other(a) {
      OtherCounters(s, a, f);
      OtherMoves(s, a, f);
    } else {
      OwnCounters(s, a, f);
    }
  }

  lemma NamesBelow(s: State)
    requires Coherent(s)
    ensures forall f :: f in s.fibers ==> f < s.nextFiber
  {}

  // ---------------------------------------------------------------- over a run

  lemma FewerFibers(s: State, a: Action)
    requires CanRun(s) && Enabled(s, a) && (a.Join? || a.Detach? || a.GcHandle? || a.Finish?)
    ensures Perform(s, a).0.fibers.Keys <= s.fibers.Keys
  {
    match a
    case Join(h) => assert HandleWellFormed(s, h);
    case Detach(h) => assert HandleWellFormed(s, h);
    case GcHandle(h) => assert HandleWellFormed(s, h);
    case Finish(_) => assert DataWellFormed(s, Me(s));
  }

  lemma NotListedAgain(s: State, a: Action, f: Fiber)
    requires WellFormed(s) && f < s.nextFiber && f !in s.fibers
    ensures f !in Next(s, a).fibers
  {
    if Enabled(s, a) {
      if a.Join? || a.Detach? || a.GcHandle? || a.Finish? {
        FewerFibers(s, a);
      } else {
        IndifferentStep(s, a, f);
      }
    }
  }

  /** A name that is not listed any more never comes back. */
  lemma {:induction false} GoneForGood(s: State, run: seq<Action>, f: Fiber)
    requires Coherent(s) && f < s.nextFiber && f !in s.fibers
    ensures f !in Exec(s, run).fibers
    decreases |run|
  {
    if run != [] {
      CoherentStep(s, run[0]);
      CoherentWellFormed(s);
      FiberCountGrows(s, run[0]);
      NotListedAgain(s, run[0], f);
      GoneForGood(Next(s, run[0]), run[1..], f);
    }
  }

  /** The counters of a fiber are what the calls of the run have made of them. */
  ghost predicate CountersFollow(s: State, run: seq<Action>, f: Fiber) {
    f in Exec(s, run).fibers ==>
      CountersOf(Exec(s, run), f) == Counters(CountersOf(s, f).forbidden + ForbiddenIn(s, run, f),
                                              CountersOf(s, f).disabled + DisabledIn(s, run, f),
                                              CountersOf(s, f).struck || StruckIn(s, run, f))
  }

  lemma FollowLater(s: State, run: seq<Action>, f: Fiber)
    requires run != [] && CountersMove(s, run[0], f, Next(s, run[0])) && f in Next(s, run[0]).fibers
    requires CountersFollow(Next(s, run[0]), run[1..], f)
    ensures CountersFollow(s, run, f)
  {}

  lemma {:induction false} CountersOverRun(s: State, run: seq<Action>, f: Fiber)
    requires Coherent(s)
    ensures CountersFollow(s, run, f)
    decreases |run|
  {
    if run != [] {
      var s1 := Next(s, run[0]);
      CoherentStep(s, run[0]);
      CountersStep(s, run[0], f);
      CountersOverRun(s1, run[1..], f);
      if f in s1.fibers {
        FollowLater(s, run, f);
      } else if f < s1.nextFiber {
        GoneForGood(s1, run[1..], f);
      } else {
        UnbornIsUnlisted(s, run[0], f);
        UnlistedIsQuiet(s, run[0], f);
        FollowUnborn(s, run, f);
      }
    }
  }

  lemma UnlistedIsQuiet(s: State, a: Action, f: Fiber)
    requires WellFormed(s) && f !in s.fibers
    ensures Forbidden(s, a, f) == 0 && Disabled(s, a, f) == 0 && !Strikes(s, a, f)
  {
    if a.Interrupt? && a.handle in s.handles {
      assert HandleWellFormed(s, a.handle);
    }
  }

  lemma UnbornIsUnlisted(s: State, a: Action, f: Fiber)
    requires Coherent(s) && f >= Next(s, a).nextFiber
    ensures WellFormed(s) && f !in s.fibers && f !in Next(s, a).fibers
  {
    CoherentStep(s, a);
    CoherentWellFormed(s);
    FiberCountGrows(s, a);
    NamesBelow(s);
    NamesBelow(Next(s, a));
  }

  lemma FollowUnborn(s: State, run: seq<Action>, f: Fiber)
    requires run != [] && f !in s.fibers && f !in Next(s, run[0]).fibers
    requires Forbidden(s, run[0], f) == 0 && Disabled(s, run[0], f) == 0 && !Strikes(s, run[0], f)
    requires CountersFollow(Next(s, run[0]), run[1..], f)
    ensures CountersFollow(s, run, f)
  {}

  // ---------------------------------------------------------------- what the counters mean for calls

  /** Calls that may suspend, on objects that exist. `wait` does so only on a locked mutex. */
  ghost predicate MaySleep(s: State, a: Action) {
    && Enabled(s, a)
    && (a.Yield? || a.Join? || a.FutureGet? || a.MutexLock? || a.RMutexLock? || (a.CondWait? && s.mutexes[a.mutex].locked))
  }

  ghost predicate InterruptionPoint(a: Action) {
    a.Yield? || a.Join? || a.FutureGet? || a.CondWait?
  }

  lemma ForbiddenRefuses(s: State, a: Action)
    requires CanRun(s) && MaySleep(s, a) && s.fibers[s.control.fiber].suspensionDisallowed > 0
    ensures Step(s, a) == (s, Raise(ForbidSuspendBlock))
  {
    assert Step(s, a) == Perform(s, a);
  }

  lemma InterruptedRefuses(s: State, a: Action)
    requires CanRun(s) && MaySleep(s, a) && s.fibers[s.control.fiber].suspensionDisallowed == 0
    ensures var d := s.fibers[s.control.fiber];
            if InterruptionPoint(a) && d.interrupted && d.interruptionDisabled == 0 then Step(s, a) == (s, Raise(Interrupted))
            else Step(s, a).1 != Raise(Interrupted) && Step(s, a).1 != Raise(ForbidSuspendBlock)
  {
    match a
    case Yield => assert Step(s, a) == DoYield(s);
    case Join(h) => assert Step(s, a) == DoJoin(s, h);
    case FutureGet(p) => assert Step(s, a) == DoFutureGet(s, p);
    case MutexLock(m) => assert Step(s, a) == DoMutexLock(s, m);
    case RMutexLock(m) => assert Step(s, a) == DoRMutexLock(s, m);
    case CondWait(c, m) => assert Step(s, a) == DoCondWait(s, c, m);
  }

  /**
    After any run, told from the calls in it: while the running fiber has forbidden suspension more often than it
    has allowed it again, no call suspends it or does anything else; otherwise the interruption points refuse
    exactly if somebody has interrupted it and it has not disabled interruption more often than restored.
   */
  lemma GatesFollowCalls(run: seq<Action>, a: Action)
    requires Exec(Init(), run).control.Active? && MaySleep(Exec(Init(), run), a)
    ensures var s := Exec(Init(), run);
            var f := s.control.fiber;
            && ForbiddenIn(Init(), run, f) >= 0 && DisabledIn(Init(), run, f) >= 0
            && if ForbiddenIn(Init(), run, f) > 0 then Step(s, a) == (s, Raise(ForbidSuspendBlock))
               else if InterruptionPoint(a) && StruckIn(Init(), run, f) && DisabledIn(Init(), run, f) == 0
               then Step(s, a) == (s, Raise(Interrupted))
               else Step(s, a).1 != Raise(Interrupted) && Step(s, a).1 != Raise(ForbidSuspendBlock)
  {
    var s := Exec(Init(), run);
    InitCoherent();
    ReachableCoherent(run);
    CoherentWellFormed(s);
    CountersOverRun(Init(), run, s.control.fiber);
    GatesOfCounters(s, a);
    assert CountersOf(Init(), s.control.fiber) == Counters(0, 0, false);
  }

  lemma GatesOfCounters(s: State, a: Action)
    requires CanRun(s) && MaySleep(s, a)
    ensures var c := CountersOf(s, s.control.fiber);
            && c.forbidden >= 0 && c.disabled >= 0
            && if c.forbidden > 0 then Step(s, a) == (s, Raise(ForbidSuspendBlock))
               else if InterruptionPoint(a) && c.struck && c.disabled == 0 then Step(s, a) == (s, Raise(Interrupted))
               else Step(s, a).1 != Raise(Interrupted) && Step(s, a).1 != Raise(ForbidSuspendBlock)
  {
    if s.fibers[s.control.fiber].suspensionDisallowed > 0 {
      ForbiddenRefuses(s, a);
    } else {
      InterruptedRefuses(s, a);
    }
  }

  /** Levels are taken away only where there are some; otherwise the call is refused. */
  lemma LevelsFollowCalls(run: seq<Action>)
    requires Exec(Init(), run).control.Active?
    ensures var s := Exec(Init(), run);
            var f := s.control.fiber;
            && Step(s, ForbidSuspend).1 == Done && Step(s, DisableInterruption).1 == Done
            && (if ForbiddenIn(Init(), run, f) > 0 then Step(s, AllowSuspend).1 == Done
                else Step(s, AllowSuspend) == (s, Raise(SuspensionAlreadyAllowed)))
            && (if DisabledIn(Init(), run, f) > 0 then Step(s, RestoreInterruption).1 == Done
                else Step(s, RestoreInterruption) == (s, Raise(InterruptionAlreadyAllowed)))
  {
    var s := Exec(Init(), run);
    InitCoherent();
    ReachableCoherent(run);
    CoherentWellFormed(s);
    CountersOverRun(Init(), run, s.control.fiber);
    assert CountersOf(Init(), s.control.fiber) == Counters(0, 0, false);
    LevelAnswers(s);
  }

  lemma LevelAnswers(s: State)
    requires CanRun(s)
    ensures var c := CountersOf(s, s.control.fiber);
            && Step(s, ForbidSuspend).1 == Done && Step(s, DisableInterruption).1 == Done
            && (if c.forbidden > 0 then Step(s, AllowSuspend).1 == Done
                else Step(s, AllowSuspend) == (s, Raise(SuspensionAlreadyAllowed)))
            && (if c.disabled > 0 then Step(s, RestoreInterruption).1 == Done
                else Step(s, RestoreInterruption) == (s, Raise(InterruptionAlreadyAllowed)))
  {
    assert Step(s, AllowSuspend) == DoAllowSuspend(s);
    assert Step(s, RestoreInterruption) == DoRestoreInterruption(s);
    assert Step(s, ForbidSuspend) == DoForbidSuspend(s);
    assert Step(s, DisableInterruption) == DoDisableInterruption(s);
  }
}
