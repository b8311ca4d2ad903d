/** What promises and futures guarantee over whole runs. */
module Promises {
  import opened Wrappers
  import opened Sequences
  import opened Runtime
  import opened Placement
  import opened Invariant
  import opened Preservation
  import opened Runs
  import opened Traces
  import opened Guarantees

  ghost predicate Settles(s: State, a: Action, p: PromiseId) {
    ((a.SetValue? && a.promise == p) || (a.SetError? && a.promise == p)) && Step(s, a).1 == Done
  }

  /** The calls of a run that set the promise. */
  ghost function SettlesIn(s: State, run: seq<Action>, p: PromiseId): seq<Action>
    decreases |run|
  {
    if run == [] then []
    else (if Settles(s, run[0], p) then [run[0]] else []) + SettlesIn(Next(s, run[0]), run[1..], p)
  }

  ghost predicate Finalizes(s: State, a: Action, p: PromiseId) {
    a == PromiseGc(p) && Step(s, a).1 == Done
  }

  ghost predicate FinalizedIn(s: State, run: seq<Action>, p: PromiseId)
    decreases |run|
  {
    run != [] && (Finalizes(s, run[0], p) || FinalizedIn(Next(s, run[0]), run[1..], p))
  }

  lemma PromiseUntouched(s: State, a: Action, p: PromiseId)
    requires WellFormed(s) && Enabled(s, a) && p in s.promises
    requires !a.Interrupt? && a != FutureGet(p) && a != PromiseGc(p)
    requires !(a.SetValue? && a.promise == p) && !(a.SetError? && a.promise == p)
    ensures p in Perform(s, a).0.promises && Perform(s, a).0.promises[p] == s.promises[p]
  {
    if a.RunNext? {
    } else if OnFibers(a) {
      QuietStep(s, a);
    }
  }

  lemma InterruptPromise(s: State, h: HandleId, p: PromiseId)
    requires CanRun(s) && h in s.handles && p in s.promises
    ensures var s' := DoInterrupt(s, h).0;
            && p in s'.promises && s'.promises[p].state == s.promises[p].state
            && s'.promises[p].promiseAlive == s.promises[p].promiseAlive
  {}

  /** The state leaves `Empty` through one successful set, and turns broken with the promise. */
  ghost predicate PromiseMoves(s: State, a: Action, p: PromiseId, s': State)
    requires p in s.promises
  {
    && p in s'.promises
    && var d, d' := s.promises[p], s'.promises[p];
       if a == PromiseGc(p) && Enabled(s, a) then d'.state == Broken && !d'.promiseAlive && !Settles(s, a, p)
       else (
         && d'.promiseAlive == d.promiseAlive
         && (Settles(s, a, p) ==>
               d.state == Empty && d'.state == if a.SetValue? then ValueReady(a.value) else ErrorReady(a.value))
         && (!Settles(s, a, p) ==> d'.state == d.state))
  }

  lemma PromiseSetMoves(s: State, p: PromiseId, v: Value)
    requires CanRun(s) && p in s.promises && s.promises[p].promiseAlive
    ensures PromiseMoves(s, SetValue(p, v), p, Next(s, SetValue(p, v)))
    ensures PromiseMoves(s, SetError(p, v), p, Next(s, SetError(p, v)))
  {
    assert Step(s, SetValue(p, v)) == DoSetValue(s, p, v);
    assert Step(s, SetError(p, v)) == DoSetError(s, p, v);
  }

  lemma PromiseOtherMoves(s: State, p: PromiseId)
    requires CanRun(s) && p in s.promises
    ensures s.promises[p].promiseAlive ==> PromiseMoves(s, PromiseGc(p), p, Next(s, PromiseGc(p)))
    ensures PromiseMoves(s, FutureGet(p), p, Next(s, FutureGet(p)))
  {
    assert Step(s, FutureGet(p)) == DoFutureGet(s, p);
    if s.promises[p].promiseAlive {
      assert Step(s, PromiseGc(p)) == DoPromiseGc(s, p);
    }
  }

  lemma PromiseElsewhere(s: State, a: Action, p: PromiseId)
    requires WellFormed(s) && p in s.promises
    requires !Enabled(s, a) ||
             (a != FutureGet(p) && a != PromiseGc(p) && !((a.SetValue? || a.SetError?) && a.promise == p))
    ensures PromiseMoves(s, a, p, Next(s, a))
  {
    if Enabled(s, a) {
      if a.Interrupt? {
        InterruptPromise(s, a.handle, p);
      } else {
        PromiseUntouched(s, a, p);
      }
    }
  }

  lemma PromiseSetStep(s: State, a: Action, p: PromiseId)
    requires CanRun(s) && Enabled(s, a) && (a.SetValue? || a.SetError?) && a.promise == p
    ensures PromiseMoves(s, a, p, Next(s, a))
  {
    match a
    case SetValue(_, v) => PromiseSetMoves(s, p, v);
    case SetError(_, v) => PromiseSetMoves(s, p, v);
  }

  lemma PromiseStep(s: State, a: Action, p: PromiseId)
    requires Coherent(s) && p in s.promises
    ensures PromiseMoves(s, a, p, Next(s, a))
  {
    CoherentWellFormed(s);
    if !Enabled(s, a) {
      PromiseElsewhere(s, a, p);
    } else if a == FutureGet(p) || a == PromiseGc(p) {
      PromiseOtherMoves(s, p);
    } else if (a.SetValue? || a.SetError?) && a.promise == p {
      PromiseSetStep(s, a, p);
    } else {
      PromiseElsewhere(s, a, p);
    }
  }

  /** At most one of all the calls that set a promise succeeds, and none once the state is not empty. */
  lemma {:induction false} SetAtMostOnce(s: State, run: seq<Action>, p: PromiseId)
    requires Coherent(s) && p in s.promises
    ensures |SettlesIn(s, run, p)| <= if s.promises[p].state == Empty then 1 else 0
    decreases |run|
  {
    if run != [] {
      CoherentStep(s, run[0]);
      PromiseStep(s, run[0], p);
      SetAtMostOnce(Next(s, run[0]), run[1..], p);
    }
  }

  /** What was set stays exactly as long as the promise object has not been finalized. */
  lemma {:induction false} SetIsStableIffPromiseAlive(s: State, run: seq<Action>, p: PromiseId)
    requires Coherent(s) && p in s.promises && s.promises[p].promiseAlive
    requires s.promises[p].state.ValueReady? || s.promises[p].state.ErrorReady?
    ensures p in Exec(s, run).promises
    ensures Exec(s, run).promises[p].state == s.promises[p].state <==> Exec(s, run).promises[p].promiseAlive
    decreases |run|
  {
    if run != [] {
      var s1 := Next(s, run[0]);
      CoherentStep(s, run[0]);
      PromiseStep(s, run[0], p);
      if s1.promises[p].promiseAlive {
        SetIsStableIffPromiseAlive(s1, run[1..], p);
      } else {
        BrokenForGood(s1, run[1..], p);
      }
    }
  }

  lemma {:induction false} BrokenForGood(s: State, run: seq<Action>, p: PromiseId)
    requires Coherent(s) && p in s.promises && !s.promises[p].promiseAlive && s.promises[p].state == Broken
    ensures p in Exec(s, run).promises
    ensures !Exec(s, run).promises[p].promiseAlive && Exec(s, run).promises[p].state == Broken
    decreases |run|
  {
    if run != [] {
      CoherentStep(s, run[0]);
      PromiseStep(s, run[0], p);
      BrokenForGood(Next(s, run[0]), run[1..], p);
    }
  }

  /** What a get finds after `a` has set the promise. */
  function Answer(a: Action): Reply {
    match a
    case SetValue(_, v) => Got(v)
    case SetError(_, v) => Throw(v)
    case _ => NotEnabled
  }

  function StateSet(a: Action): FutureState {
    match a
    case SetValue(_, v) => ValueReady(v)
    case SetError(_, v) => ErrorReady(v)
    case _ => Empty
  }

  lemma GetReply(s: State, p: PromiseId)
    requires CanRun(s) && p in s.promises && FreeToSuspend(Me(s))
    ensures Step(s, FutureGet(p)).1 ==
              match s.promises[p].state
              case Empty => Suspended
              case Broken => Raise(BrokenPromise)
              case ValueReady(v) => Got(v)
              case ErrorReady(v) => Throw(v)
  {
    assert Step(s, FutureGet(p)) == DoFutureGet(s, p);
  }

  /** The state of a promise is what the calls on it have made of it. */
  ghost predicate Follows(s: State, run: seq<Action>, p: PromiseId) {
    && p in s.promises && p in Exec(s, run).promises
    && var d, d' := s.promises[p], Exec(s, run).promises[p];
       && (d'.promiseAlive <==> d.promiseAlive && !FinalizedIn(s, run, p))
       && (d.state != Empty ==> SettlesIn(s, run, p) == [])
       && d'.state == (if FinalizedIn(s, run, p) then Broken
                       else if SettlesIn(s, run, p) == [] then d.state else StateSet(SettlesIn(s, run, p)[0]))
  }

  lemma FollowsLater(s: State, run: seq<Action>, p: PromiseId)
    requires run != [] && p in s.promises && PromiseMoves(s, run[0], p, Next(s, run[0]))
    requires Finalizes(s, run[0], p) <==> run[0] == PromiseGc(p) && Enabled(s, run[0])
    requires Follows(Next(s, run[0]), run[1..], p)
    ensures Follows(s, run, p)
  {
    if Settles(s, run[0], p) {
      assert SettlesIn(s, run, p) == [run[0]];
    }
  }

  lemma {:induction false} StateFollows(s: State, run: seq<Action>, p: PromiseId)
    requires Coherent(s) && p in s.promises
    ensures Follows(s, run, p)
    decreases |run|
  {
    if run != [] {
      CoherentStep(s, run[0]);
      PromiseStep(s, run[0], p);
      GcAnswers(s, run[0], p);
      StateFollows(Next(s, run[0]), run[1..], p);
      FollowsLater(s, run, p);
    }
  }

  lemma GcAnswers(s: State, a: Action, p: PromiseId)
    requires Coherent(s) && p in s.promises
    ensures Finalizes(s, a, p) <==> a == PromiseGc(p) && Enabled(s, a)
  {
    CoherentWellFormed(s);
    if a == PromiseGc(p) && Enabled(s, a) {
      assert Step(s, a) == DoPromiseGc(s, p);
    }
  }

  /**
    Whatever has happened since the promise was made, a get tells its history: it fails once the promise object
    was finalized, else returns the value or raises the error of the one call that set it, else sleeps.
   */
  lemma GetTellsHistory(s: State, run: seq<Action>, p: PromiseId)
    requires Coherent(s) && p in s.promises && s.promises[p].state == Empty
    ensures |SettlesIn(s, run, p)| <= 1
    ensures var e := Exec(s, run);
            e.control.Active? && e.control.fiber in e.fibers && FreeToSuspend(e.fibers[e.control.fiber]) ==>
              Step(e, FutureGet(p)).1 ==
                if FinalizedIn(s, run, p) then Raise(BrokenPromise)
                else if SettlesIn(s, run, p) == [] then Suspended
                else Answer(SettlesIn(s, run, p)[0])
  {
    SetAtMostOnce(s, run, p);
    SettlesAreSets(s, run, p);
    StateFollows(s, run, p);
    CoherentRun(s, run);
    GetInState(Exec(s, run), p, FinalizedIn(s, run, p), SettlesIn(s, run, p));
  }

  lemma GetInState(e: State, p: PromiseId, finalized: bool, settles: seq<Action>)
    requires Coherent(e) && p in e.promises && |settles| <= 1 && forall a :: a in settles ==> a.SetValue? || a.SetError?
    requires e.promises[p].state == if finalized then Broken else if settles == [] then Empty else StateSet(settles[0])
    ensures e.control.Active? && e.control.fiber in e.fibers && FreeToSuspend(e.fibers[e.control.fiber]) ==>
              Step(e, FutureGet(p)).1 ==
                if finalized then Raise(BrokenPromise) else if settles == [] then Suspended else Answer(settles[0])
  {
    CoherentWellFormed(e);
    if e.control.Active? && FreeToSuspend(e.fibers[e.control.fiber]) {
      GetReply(e, p);
      assert settles != [] ==> settles[0] in settles;
    }
  }

  lemma {:induction false} SettlesAreSets(s: State, run: seq<Action>, p: PromiseId)
    ensures forall a :: a in SettlesIn(s, run, p) ==> a.SetValue? || a.SetError?
    decreases |run|
  {
    if run != [] {
      SettlesAreSets(Next(s, run[0]), run[1..], p);
    }
  }

  /** A value can be lost: set it, let the collector take the promise, then ask the future. */
  lemma ValueLostWithPromise()
    ensures var s := Exec(Init(), [NewPromise(0), SetValue(0, Object(7)), PromiseGc(0)]);
            Step(s, FutureGet(0)).1 == Raise(BrokenPromise)
  {
    var s0 := Init();
    InitCoherent();
    var s1 := Next(s0, NewPromise(0));
    PromiseIsMade(s0, 0);
    var s2 := Next(s1, SetValue(0, Object(7)));
    PromiseIsSet(s1, 0, Object(7));
    var s3 := Next(s2, PromiseGc(0));
    PromiseIsFinalized(s2, 0);
    CoherentWellFormed(s3);
    GetReply(s3, 0);
    ExecThree(s0, NewPromise(0), SetValue(0, Object(7)), PromiseGc(0));
  }

  lemma ExecThree(s: State, a: Action, b: Action, c: Action)
    ensures Exec(s, [a, b, c]) == Next(Next(Next(s, a), b), c)
  {
    assert [a, b, c][1..] == [b, c] && [b, c][1..] == [c] && [c][1..] == [];
    assert Exec(Next(Next(s, a), b), [c]) == Next(Next(Next(s, a), b), c);
    assert Exec(Next(s, a), [b, c]) == Exec(Next(Next(s, a), b), [c]);
  }

  lemma PromiseIsMade(s: State, p: PromiseId)
    requires Coherent(s) && s.control.Active? && p !in s.promises
    ensures var s' := Next(s, NewPromise(p));
            && Coherent(s') && s'.control == s.control && s'.fibers == s.fibers
            && p in s'.promises && s'.promises[p] == PromiseData(Empty, [], true)
  {
    CoherentStep(s, NewPromise(p));
  }

  lemma PromiseIsSet(s: State, p: PromiseId, v: Value)
    requires Coherent(s) && s.control.Active? && p in s.promises
    requires s.promises[p].promiseAlive && s.promises[p].state == Empty
    ensures var s' := Next(s, SetValue(p, v));
            && Step(s, SetValue(p, v)).1 == Done
            && Coherent(s') && s'.control == s.control && s'.fibers == s.fibers
            && p in s'.promises && s'.promises[p].promiseAlive && s'.promises[p].state == ValueReady(v)
  {
    CoherentStep(s, SetValue(p, v));
  }

  lemma PromiseIsFinalized(s: State, p: PromiseId)
    requires Coherent(s) && s.control.Active? && p in s.promises && s.promises[p].promiseAlive
    ensures var s' := Next(s, PromiseGc(p));
            && Coherent(s') && s'.control == s.control && s'.fibers == s.fibers
            && p in s'.promises && s'.promises[p].state == Broken
  {
    CoherentStep(s, PromiseGc(p));
  }

  // ---------------------------------------------------------------- what the waiters are told

  /** The one outcome that a step has for everybody who waits. */
  function SettleArgs(a: Action): Args {
    match a
    case SetValue(_, v) => Ready(v)
    case SetError(_, v) => Failed(v)
    case _ => Failure(BrokenPromise)
  }

  /** The outcome of the first step of a run that sets the promise or loses it. */
  ghost function Verdict(s: State, run: seq<Action>, p: PromiseId): Option<Args>
    decreases |run|
  {
    if run == [] then None
    else if Settles(s, run[0], p) || Finalizes(s, run[0], p) then Some(SettleArgs(run[0]))
    else Verdict(Next(s, run[0]), run[1..], p)
  }

  /** The closures among `posts` that resume one of `who`. */
  ghost function ForThese(posts: seq<Resume>, who: seq<Fiber>): seq<Resume> {
    if posts == [] then []
    else (if posts[0].fiber in who then [posts[0]] else []) + ForThese(posts[1..], who)
  }

  /** What a step posts to fibers that wait for the promise. */
  ghost function Told(s: State, a: Action, p: PromiseId): seq<Resume> {
    ForThese(Posts(s, a), Queue(s, InFuture(p)))
  }

  ghost function ToldIn(s: State, run: seq<Action>, p: PromiseId): seq<Resume>
    decreases |run|
  {
    if run == [] then [] else Told(s, run[0], p) + ToldIn(Next(s, run[0]), run[1..], p)
  }

  /** The closures that carry `args`. */
  ghost function Carrying(told: seq<Resume>, args: Args): seq<Resume> {
    if told == [] then []
    else (if told[0].args == args then [told[0]] else []) + Carrying(told[1..], args)
  }

  lemma {:induction false} CarryingConcat(a: seq<Resume>, b: seq<Resume>, args: Args)
    ensures Carrying(a + b, args) == Carrying(a, args) + Carrying(b, args)
    decreases |a|
  {
    if a == [] {
      assert a + b == b;
    } else {
      ConcatRest(a, b);
      CarryingConcat(a[1..], b, args);
      ConcatAssociative(if a[0].args == args then [a[0]] else [], Carrying(a[1..], args), Carrying(b, args));
    }
  }

  lemma {:induction false} CarryingAll(a: seq<Resume>, args: Args)
    requires forall r :: r in a ==> r.args == args
    ensures Carrying(a, args) == a
  {
    if a != [] {
      CarryingAll(a[1..], args);
      assert a == [a[0]] + a[1..];
    }
  }

  lemma {:induction false} CarryingNone(a: seq<Resume>, args: Args)
    requires forall r :: r in a ==> r.args != args
    ensures Carrying(a, args) == []
  {
    if a != [] {
      CarryingNone(a[1..], args);
    }
  }

  lemma {:induction false} AllForThese(posts: seq<Resume>, who: seq<Fiber>)
    requires forall r :: r in posts ==> r.fiber in who
    ensures ForThese(posts, who) == posts
  {
    if posts != [] {
      AllForThese(posts[1..], who);
      assert posts == [posts[0]] + posts[1..];
    }
  }

  lemma {:induction false} NoneForThese(posts: seq<Resume>, who: seq<Fiber>)
    requires forall r :: r in posts ==> r.fiber !in who
    ensures ForThese(posts, who) == []
  {
    if posts != [] {
      NoneForThese(posts[1..], who);
    }
  }

  /** A step that settles the promise tells every waiter the same, in order; then nobody waits. */
  ghost predicate AllTold(s: State, a: Action, p: PromiseId) {
    && Targets(Posts(s, a)) == Queue(s, InFuture(p))
    && (forall r :: r in Posts(s, a) ==> r.args == SettleArgs(a))
    && Queue(Next(s, a), InFuture(p)) == []
  }

  lemma SettlingPosts(s: State, a: Action, p: PromiseId)
    requires CanRun(s) && p in s.promises && (Settles(s, a, p) || Finalizes(s, a, p))
    ensures AllTold(s, a, p)
  {
    match a
    case SetValue(_, v) => assert Step(s, a) == DoSetValue(s, p, v);
    case SetError(_, v) => assert Step(s, a) == DoSetError(s, p, v);
    case PromiseGc(_) => assert Step(s, a) == DoPromiseGc(s, p);
    var posts := Posts(s, a);
    assert |posts| == |s.promises[p].waiters|;
    forall i | 0 <= i < |posts|
      ensures posts[i] == Resume(s.promises[p].waiters[i], SettleArgs(a), false)
    {
      assert posts[i] == Next(s, a).strand[|s.strand| + i];
    }
    assert forall i :: 0 <= i < |posts| ==> Targets(posts)[i] == s.promises[p].waiters[i];
  }

  lemma {:induction false} TargetsMembers(posts: seq<Resume>)
    ensures forall r :: r in posts ==> r.fiber in Targets(posts)
  {
    forall r | r in posts
      ensures r.fiber in Targets(posts)
    {
      var i :| 0 <= i < |posts| && posts[i] == r;
      assert Targets(posts)[i] == r.fiber;
    }
  }

  /** What a call other than the settling ones does to those who wait: it can only interrupt one. */
  ghost predicate OnlyInterrupts(s: State, a: Action, p: PromiseId) {
    && Woken(s, a, InFuture(p)) == []
    && Targets(Told(s, a, p)) == Evicted(s, a, InFuture(p))
    && forall r :: r in Told(s, a, p) ==> r.args == Failure(Interrupted)
  }

  lemma FailedSetPosts(s: State, a: Action, p: PromiseId)
    requires WellFormed(s) && p in s.promises && Wakes(a, InFuture(p)) && !Settles(s, a, p) && !Finalizes(s, a, p)
    ensures Posts(s, a) == []
  {
    if Enabled(s, a) {
      match a
      case SetValue(_, v) => assert Step(s, a) == DoSetValue(s, p, v);
      case SetError(_, v) => assert Step(s, a) == DoSetError(s, p, v);
      case PromiseGc(_) =>
    }
  }

  /** Whoever is posted has left every wait queue. */
  lemma PostedHasLeft(s: State, a: Action, p: PromiseId, r: Resume)
    requires Coherent(s) && r in Posts(s, a)
    ensures r.fiber !in Queue(Next(s, a), InFuture(p))
  {
    var s' := Next(s, a);
    CoherentStep(s, a);
    CoherentSinglyPlaced(s');
    TargetsMembers(s'.strand);
    assert r in s'.strand;
    assert At(s', r.fiber, Posted);
    assert r.fiber in Queue(s', InFuture(p)) ==> At(s', r.fiber, InFuture(p));
  }

  lemma QuietTells(s: State, a: Action, p: PromiseId)
    requires Coherent(s) && Woken(s, a, InFuture(p)) == [] && QueueAdvances(s, a, InFuture(p))
    ensures Told(s, a, p) == []
  {
    var q, q' := Queue(s, InFuture(p)), Queue(Next(s, a), InFuture(p));
    assert q + Arrived(s, a, InFuture(p)) == [] + q' == q';
    forall r | r in Posts(s, a)
      ensures r.fiber !in q
    {
      PostedHasLeft(s, a, p, r);
      assert r.fiber in q ==> r.fiber in q + Arrived(s, a, InFuture(p));
    }
    NoneForThese(Posts(s, a), q);
  }

  lemma EvictionArgs(s: State, w: Places, h: HandleId, p: PromiseId)
    requires InStep(s, w) && h in s.handles
    ensures var s' := DoInterrupt(s, h).0;
            && s.strand <= s'.strand && |s'.strand| <= |s.strand| + 1
            && (|s'.strand| > |s.strand| && s'.strand[|s.strand|].fiber in Queue(s, InFuture(p)) ==>
                  s'.strand[|s.strand|].args == Failure(Interrupted))
  {
    InterruptStrand(s, h);
    assert HandleOk(s, h);
    if s.handles[h].fiber.Some? {
      RunningPlace(s, w);
      if h == s.control.fiber || s.fibers[h].interruptionDisabled > 0 || !Interruptible(w[h]) {
        InterruptFindsNobody(s, w, h);
      } else {
        InterruptWakes(s, w, h);
        Members(s, w, InFuture(p));
      }
    }
  }

  lemma EvictionTells(s: State, a: Action, p: PromiseId)
    requires Coherent(s) && QueueEvicts(s, a, InFuture(p))
    ensures Targets(Told(s, a, p)) == Evicted(s, a, InFuture(p))
    ensures forall r :: r in Told(s, a, p) ==> r.args == Failure(Interrupted)
  {
    var w :| Inv(s, w);
    InvWellFormed(s, w);
    CoherentStep(s, a);
    assert a.Interrupt? && Posts(s, a) != [];
    assert Step(s, a) == DoInterrupt(s, a.handle);
    EvictionArgs(s, w, a.handle, p);
    var posts := Posts(s, a);
    assert posts == [posts[0]];
    AllForThese(posts, Queue(s, InFuture(p)));
  }

  lemma UnsettledStep(s: State, a: Action, p: PromiseId)
    requires Coherent(s) && p in s.promises && !Settles(s, a, p) && !Finalizes(s, a, p)
    ensures OnlyInterrupts(s, a, p)
  {
    CoherentWellFormed(s);
    QueueStep(s, a, InFuture(p));
    if Wakes(a, InFuture(p)) {
      FailedSetPosts(s, a, p);
    }
    if QueueEvicts(s, a, InFuture(p)) {
      EvictionTells(s, a, p);
    } else {
      QuietTells(s, a, p);
    }
  }

  /** Nobody is told anything, and nobody comes or goes. */
  ghost predicate NobodyMoves(s: State, a: Action, p: PromiseId) {
    && Told(s, a, p) == [] && Woken(s, a, InFuture(p)) == []
    && Evicted(s, a, InFuture(p)) == [] && Arrived(s, a, InFuture(p)) == []
  }

  lemma EmptyStays(s: State, a: Action, p: PromiseId)
    requires Queue(s, InFuture(p)) == [] && Queue(Next(s, a), InFuture(p)) == []
    requires QueueAdvances(s, a, InFuture(p)) || QueueEvicts(s, a, InFuture(p))
    ensures NobodyMoves(s, a, p)
  {
    NoneForThese(Posts(s, a), []);
    assert QueueAdvances(s, a, InFuture(p));
    assert |Arrived(s, a, InFuture(p))| == |Woken(s, a, InFuture(p))|;
  }

  lemma SettledStep(s: State, a: Action, p: PromiseId)
    requires Coherent(s) && p in s.promises && s.promises[p].state != Empty
    ensures Coherent(Next(s, a)) && p in Next(s, a).promises && Next(s, a).promises[p].state != Empty
    ensures Queue(Next(s, a), InFuture(p)) == []
  {
    CoherentStep(s, a);
    PromiseStep(s, a, p);
    NoWaiters(Next(s, a), p);
  }

  /** Once a promise is not empty, nobody waits for it or starts to. */
  lemma {:induction false} NobodyWaits(s: State, run: seq<Action>, p: PromiseId)
    requires Coherent(s) && p in s.promises && s.promises[p].state != Empty
    ensures ToldIn(s, run, p) == [] && WokenIn(s, run, InFuture(p)) == []
    ensures EvictedIn(s, run, InFuture(p)) == [] && ArrivedIn(s, run, InFuture(p)) == []
    ensures Queue(Exec(s, run), InFuture(p)) == []
    decreases |run|
  {
    NoWaiters(s, p);
    if run != [] {
      SettledStep(s, run[0], p);
      QueueStep(s, run[0], InFuture(p));
      EmptyStays(s, run[0], p);
      NobodyWaits(Next(s, run[0]), run[1..], p);
    }
  }

  lemma NoWaiters(s: State, p: PromiseId)
    requires Coherent(s) && p in s.promises && s.promises[p].state != Empty
    ensures Queue(s, InFuture(p)) == []
  {
    var w :| Inv(s, w);
    assert PromiseOk(s.promises[p]);
  }

  /** The deliveries to the waiters of `p`: the one outcome, or an interruption, and which fiber got which. */
  ghost predicate Delivers(told: seq<Resume>, verdict: Option<Args>, woken: seq<Fiber>, evicted: seq<Fiber>) {
    && verdict != Some(Failure(Interrupted))
    && (forall r :: r in told ==> r.args == Failure(Interrupted) || Some(r.args) == verdict)
    && Targets(Carrying(told, Failure(Interrupted))) == evicted
    && (verdict.Some? ==> Targets(Carrying(told, verdict.value)) == woken)
    && (verdict.None? ==> woken == [])
  }

  lemma DeliversLater(first: seq<Resume>, told: seq<Resume>, verdict: Option<Args>, woken: seq<Fiber>,
                      evicted: seq<Fiber>)
    requires Delivers(told, verdict, woken, evicted) && forall r :: r in first ==> r.args == Failure(Interrupted)
    ensures Delivers(first + told, verdict, woken, Targets(first) + evicted)
  {
    CarryingConcat(first, told, Failure(Interrupted));
    CarryingAll(first, Failure(Interrupted));
    TargetsAppend(first, Carrying(told, Failure(Interrupted)));
    if verdict.Some? {
      CarryingConcat(first, told, verdict.value);
      CarryingNone(first, verdict.value);
      assert [] + Carrying(told, verdict.value) == Carrying(told, verdict.value);
    }
  }

  lemma DeliversNow(told: seq<Resume>, args: Args)
    requires args != Failure(Interrupted) && forall r :: r in told ==> r.args == args
    ensures Delivers(told, Some(args), Targets(told), [])
  {
    CarryingAll(told, args);
    CarryingNone(told, Failure(Interrupted));
  }

  lemma SettlingTells(s: State, a: Action, p: PromiseId)
    requires CanRun(s) && p in s.promises && (Settles(s, a, p) || Finalizes(s, a, p))
    ensures Delivers(Told(s, a, p), Some(SettleArgs(a)), Targets(Posts(s, a)), [])
  {
    SettlingPosts(s, a, p);
    TargetsMembers(Posts(s, a));
    AllForThese(Posts(s, a), Queue(s, InFuture(p)));
    DeliversNow(Told(s, a, p), SettleArgs(a));
  }

  lemma SettlingSettles(s: State, a: Action, p: PromiseId)
    requires Coherent(s) && p in s.promises && (Settles(s, a, p) || Finalizes(s, a, p))
    ensures CanRun(s) && p in Next(s, a).promises && Next(s, a).promises[p].state != Empty
    ensures Woken(s, a, InFuture(p)) == Targets(Posts(s, a)) && Evicted(s, a, InFuture(p)) == []
  {
    CoherentWellFormed(s);
    PromiseStep(s, a, p);
    SettlingWakes(s, a, p);
  }

  lemma SettlingWakes(s: State, a: Action, p: PromiseId)
    requires Settles(s, a, p) || Finalizes(s, a, p)
    ensures Woken(s, a, InFuture(p)) == Targets(Posts(s, a)) && Evicted(s, a, InFuture(p)) == []
  {}

  lemma SettlingStep(s: State, a: Action, p: PromiseId)
    requires Coherent(s) && p in s.promises && (Settles(s, a, p) || Finalizes(s, a, p))
    ensures Coherent(Next(s, a)) && p in Next(s, a).promises && Next(s, a).promises[p].state != Empty
    ensures Delivers(Told(s, a, p), Some(SettleArgs(a)), Woken(s, a, InFuture(p)), [])
    ensures Evicted(s, a, InFuture(p)) == []
  {
    CoherentStep(s, a);
    SettlingSettles(s, a, p);
    SettlingTells(s, a, p);
  }

  /** What a run told the waiters of `p`. */
  ghost predicate ToldRightly(s: State, run: seq<Action>, p: PromiseId) {
    && Delivers(ToldIn(s, run, p), Verdict(s, run, p), WokenIn(s, run, InFuture(p)), EvictedIn(s, run, InFuture(p)))
    && (Verdict(s, run, p).Some? ==> Queue(Exec(s, run), InFuture(p)) == [])
  }

  lemma ToldFromHere(s: State, a: Action, rest: seq<Action>, p: PromiseId)
    requires Coherent(s) && p in s.promises && (Settles(s, a, p) || Finalizes(s, a, p))
    ensures ToldRightly(s, [a] + rest, p)
  {
    SettlingStep(s, a, p);
    NobodyWaits(Next(s, a), rest, p);
    NothingLater(s, a, rest, p);
  }

  lemma NothingLater(s: State, a: Action, rest: seq<Action>, p: PromiseId)
    requires Settles(s, a, p) || Finalizes(s, a, p)
    requires Delivers(Told(s, a, p), Some(SettleArgs(a)), Woken(s, a, InFuture(p)), Evicted(s, a, InFuture(p)))
    requires var s1 := Next(s, a);
             && ToldIn(s1, rest, p) == [] && WokenIn(s1, rest, InFuture(p)) == [] && EvictedIn(s1, rest, InFuture(p)) == []
             && Queue(Exec(s1, rest), InFuture(p)) == []
    ensures ToldRightly(s, [a] + rest, p)
  {
    Unroll(s, a, rest, p);
    assert Told(s, a, p) + [] == Told(s, a, p);
    assert Woken(s, a, InFuture(p)) + [] == Woken(s, a, InFuture(p));
    assert Evicted(s, a, InFuture(p)) + [] == Evicted(s, a, InFuture(p));
  }

  lemma ToldLater(s: State, a: Action, rest: seq<Action>, p: PromiseId)
    requires Coherent(s) && p in s.promises && !(Settles(s, a, p) || Finalizes(s, a, p))
    requires ToldRightly(Next(s, a), rest, p)
    ensures ToldRightly(s, [a] + rest, p)
  {
    var s1, q := Next(s, a), InFuture(p);
    UnsettledStep(s, a, p);
    DeliversLater(Told(s, a, p), ToldIn(s1, rest, p), Verdict(s1, rest, p), WokenIn(s1, rest, q), EvictedIn(s1, rest, q));
    Unroll(s, a, rest, p);
    assert [] + WokenIn(s1, rest, q) == WokenIn(s1, rest, q);
  }

  lemma Unroll(s: State, a: Action, rest: seq<Action>, p: PromiseId)
    ensures ([a] + rest)[0] == a && ([a] + rest)[1..] == rest
    ensures ToldIn(s, [a] + rest, p) == Told(s, a, p) + ToldIn(Next(s, a), rest, p)
    ensures WokenIn(s, [a] + rest, InFuture(p)) == Woken(s, a, InFuture(p)) + WokenIn(Next(s, a), rest, InFuture(p))
    ensures EvictedIn(s, [a] + rest, InFuture(p)) == Evicted(s, a, InFuture(p)) + EvictedIn(Next(s, a), rest, InFuture(p))
    ensures Exec(s, [a] + rest) == Exec(Next(s, a), rest)
  {}

  lemma {:induction false} RunTellsRightly(s: State, run: seq<Action>, p: PromiseId)
    requires Coherent(s) && p in s.promises
    ensures ToldRightly(s, run, p)
    decreases |run|
  {
    if run != [] {
      var a, rest := run[0], run[1..];
      assert run == [a] + rest;
      if Settles(s, a, p) || Finalizes(s, a, p) {
        ToldFromHere(s, a, rest, p);
      } else {
        CoherentStep(s, a);
        PromiseStep(s, a, p);
        RunTellsRightly(Next(s, a), rest, p);
        ToldLater(s, a, rest, p);
      }
    }
  }

  /**
    Over any run, each wait for a promise that ends is told of once: with the outcome of the first step that set
    or lost the promise, or that it was interrupted. After that step nobody waits any more.
   */
  lemma EveryWaiterToldOnce(s: State, run: seq<Action>, p: PromiseId)
    requires Coherent(s) && p in s.promises
    ensures Delivers(ToldIn(s, run, p), Verdict(s, run, p), WokenIn(s, run, InFuture(p)), EvictedIn(s, run, InFuture(p)))
    ensures multiset(Queue(s, InFuture(p))) + multiset(ArrivedIn(s, run, InFuture(p)))
         == multiset(WokenIn(s, run, InFuture(p))) + multiset(EvictedIn(s, run, InFuture(p)))
            + multiset(Queue(Exec(s, run), InFuture(p)))
    ensures Verdict(s, run, p).Some? ==> Queue(Exec(s, run), InFuture(p)) == []
  {
    WaitersConserved(s, run, InFuture(p));
    RunTellsRightly(s, run, p);
  }

  /** In a reachable state only an empty promise has waiters. */
  lemma OnlyEmptyHasWaiters(run: seq<Action>, p: PromiseId)
    requires p in Exec(Init(), run).promises && Exec(Init(), run).promises[p].state != Empty
    ensures Exec(Init(), run).promises[p].waiters == []
  {
    ReachableCoherent(run);
    NoWaiters(Exec(Init(), run), p);
  }
}
