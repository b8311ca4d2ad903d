/** Condition variables over whole runs: whom a notification wakes, and that no wait misses one. */
module Notifications {
  import opened Wrappers
  import opened Sequences
  import opened Runtime
  import opened Placement
  import opened Invariant
  import opened Runs
  import opened Traces

  // ---------------------------------------------------------------- who is left, told from outside

  /** `q` without the first occurrence of each of `gone`. */
  ghost function Without(q: seq<Fiber>, gone: seq<Fiber>): seq<Fiber>
    decreases |gone|
  {
    if gone == [] then q else Without(Erase(q, gone[0]), gone[1..])
  }

  /**
    The fibers that have gone to sleep on `p`, in that order, and have been neither woken nor interrupted since;
    `before` slept there before the run.
   */
  ghost function Remaining(s: State, run: seq<Action>, p: Place, before: seq<Fiber>): seq<Fiber>
    decreases |run|
  {
    if run == [] then before
    else
      var a := run[0];
      Remaining(Next(s, a), run[1..], p, Without(before, Woken(s, a, p) + Evicted(s, a, p)) + Arrived(s, a, p))
  }

  lemma {:induction false} WithoutFront(gone: seq<Fiber>, rest: seq<Fiber>)
    ensures Without(gone + rest, gone) == rest
  {
    if gone == [] {
      assert [] + rest == rest;
    } else {
      assert (gone + rest)[0] == gone[0] && (gone + rest)[1..] == gone[1..] + rest;
      WithoutFront(gone[1..], rest);
    }
  }

  lemma FrontOf(q: seq<Fiber>, arrived: seq<Fiber>, woken: seq<Fiber>, q': seq<Fiber>)
    requires q + arrived == woken + q' && (arrived == [] || woken == [])
    ensures Without(q, woken + []) + arrived == q'
  {
    assert woken + [] == woken;
    if woken == [] {
      assert q + arrived == q';
    } else {
      assert q == woken + q';
      WithoutFront(woken, q');
      assert q' + [] == q';
    }
  }

  lemma WithoutOne(q: seq<Fiber>, evicted: seq<Fiber>)
    requires |evicted| == 1
    ensures Without(q, [] + evicted) + [] == Erase(q, evicted[0])
  {
    assert [] + evicted == evicted && evicted[1..] == [];
    assert Erase(q, evicted[0]) + [] == Erase(q, evicted[0]);
  }

  lemma AdvanceRemains(s: State, a: Action, p: Place)
    requires QueueAdvances(s, a, p)
    ensures Queue(Next(s, a), p) == Without(Queue(s, p), Woken(s, a, p) + Evicted(s, a, p)) + Arrived(s, a, p)
  {
    ComesOrGoes(s, a, p);
    FrontOf(Queue(s, p), Arrived(s, a, p), Woken(s, a, p), Queue(Next(s, a), p));
  }

  /** No step both wakes a sleeper of `p` and sends another to sleep there. */
  lemma ComesOrGoes(s: State, a: Action, p: Place)
    ensures Arrived(s, a, p) == [] || Woken(s, a, p) == []
  {
    assert SleepsOn(a) == Some(p) ==> !Traces.Wakes(a, p);
  }

  lemma EvictionRemains(s: State, a: Action, p: Place)
    requires QueueEvicts(s, a, p)
    ensures Queue(Next(s, a), p) == Without(Queue(s, p), Woken(s, a, p) + Evicted(s, a, p)) + Arrived(s, a, p)
  {
    WithoutOne(Queue(s, p), Evicted(s, a, p));
  }

  /** The queue of `p` is what the observations of a step make of it. */
  lemma RemainingStep(s: State, a: Action, p: Place)
    requires Coherent(s) && IsWaitQueue(s, p)
    ensures Queue(Next(s, a), p) == Without(Queue(s, p), Woken(s, a, p) + Evicted(s, a, p)) + Arrived(s, a, p)
  {
    QueueStep(s, a, p);
    if QueueAdvances(s, a, p) {
      AdvanceRemains(s, a, p);
    } else {
      EvictionRemains(s, a, p);
    }
  }

  lemma {:induction false} RemainingIsQueue(s: State, run: seq<Action>, p: Place)
    requires Coherent(s) && IsWaitQueue(s, p)
    ensures IsWaitQueue(Exec(s, run), p)
    ensures Queue(Exec(s, run), p) == Remaining(s, run, p, Queue(s, p))
    decreases |run|
  {
    if run != [] {
      CoherentStep(s, run[0]);
      QueueStep(s, run[0], p);
      RemainingStep(s, run[0], p);
      RemainingIsQueue(Next(s, run[0]), run[1..], p);
    }
  }

  // ---------------------------------------------------------------- whom a notification wakes

  /** A step posts a plain resume to each of `who`, in that order, and nothing else. */
  ghost predicate Resumes(s: State, a: Action, who: seq<Fiber>) {
    Targets(Posts(s, a)) == who && forall r :: r in Posts(s, a) ==> r.args == NoArgs
  }

  lemma NotifyOneWakes(s: State, c: CondId)
    requires CanRun(s) && c in s.conds
    ensures Resumes(s, NotifyOne(c), s.conds[c][..if s.conds[c] == [] then 0 else 1])
  {
    assert Step(s, NotifyOne(c)) == DoNotifyOne(s, c);
    StrandKeeps(s, DoNotifyOne(s, c).0.strand);
  }

  lemma NotifyAllWakes(s: State, c: CondId)
    requires CanRun(s) && c in s.conds
    ensures Resumes(s, NotifyAll(c), s.conds[c])
  {
    assert Step(s, NotifyAll(c)) == DoNotifyAll(s, c);
    var posts := DoNotifyAll(s, c).0.strand[|s.strand|..];
    assert |posts| == |s.conds[c]|;
    assert forall i :: 0 <= i < |posts| ==> posts[i] == Resume(s.conds[c][i], NoArgs, false);
    assert forall i :: 0 <= i < |posts| ==> Targets(posts)[i] == s.conds[c][i];
  }

  /**
    After any run, notify_one resumes the fiber that has waited longest of those neither woken nor interrupted,
    and notify_all resumes all of those, in the order in which they came; nobody else is resumed.
   */
  lemma NotifyWakesWhoRemains(s: State, run: seq<Action>, c: CondId)
    requires Coherent(s) && c in s.conds && Exec(s, run).control.Active?
    ensures var e, left := Exec(s, run), Remaining(s, run, InCond(c), Queue(s, InCond(c)));
            Resumes(e, NotifyOne(c), left[..if left == [] then 0 else 1]) && Resumes(e, NotifyAll(c), left)
  {
    CoherentRun(s, run);
    RemainingIsQueue(s, run, InCond(c));
    CoherentWellFormed(Exec(s, run));
    NotifyOneWakes(Exec(s, run), c);
    NotifyAllWakes(Exec(s, run), c);
  }

  // ---------------------------------------------------------------- no wait misses a notification

  /** Notifications in a run that count for a fiber with `ahead` others before it. */
  ghost predicate Reaches(s: State, run: seq<Action>, c: CondId, ahead: nat)
    decreases |run|
  {
    run != [] &&
    if run[0] == NotifyAll(c) && Enabled(s, run[0]) then true
    else if run[0] == NotifyOne(c) && Enabled(s, run[0]) then
      ahead == 0 || Reaches(Next(s, run[0]), run[1..], c, ahead - 1)
    else Reaches(Next(s, run[0]), run[1..], c, ahead)
  }

  ghost predicate StandsAt(s: State, c: CondId, f: Fiber, k: nat) {
    c in s.conds && k < |s.conds[c]| && s.conds[c][k] == f
  }

  lemma {:induction false} EraseIndex(q: seq<Fiber>, x: Fiber, k: nat) returns (k': nat)
    requires k < |q| && q[k] != x
    ensures k' <= k && k' < |Erase(q, x)| && Erase(q, x)[k'] == q[k]
  {
    if q[0] == x {
      k' := k - 1;
    } else if k == 0 {
      k' := 0;
    } else {
      k' := EraseIndex(q[1..], x, k - 1);
      k' := k' + 1;
    }
  }

  lemma AdvanceIndex(q: seq<Fiber>, arrived: seq<Fiber>, woken: seq<Fiber>, q': seq<Fiber>, k: nat)
    requires q + arrived == woken + q' && k < |q|
    ensures k < |woken| ==> q[k] in woken
    ensures k >= |woken| ==> k - |woken| < |q'| && q'[k - |woken|] == q[k]
  {
    assert q[k] == (q + arrived)[k] == (woken + q')[k];
  }

  /** How many a notification wakes at least while somebody stands at place `k`. */
  ghost predicate Counts(s: State, a: Action, c: CondId, k: nat) {
    && (a == NotifyOne(c) && Enabled(s, a) ==> |Woken(s, a, InCond(c))| == 1)
    && (a == NotifyAll(c) && Enabled(s, a) ==> |Woken(s, a, InCond(c))| > k)
  }

  lemma NotifyCounts(s: State, a: Action, c: CondId, k: nat)
    requires WellFormed(s) && c in s.conds && k < |s.conds[c]|
    ensures Counts(s, a, c, k)
  {
    if Enabled(s, a) {
      if a == NotifyOne(c) {
        NotifyOneWakes(s, c);
      } else if a == NotifyAll(c) {
        NotifyAllWakes(s, c);
      }
    }
  }

  /** Where the waiter at place `k` stands after a step, unless it has left. */
  ghost predicate MovesUp(s: State, a: Action, c: CondId, f: Fiber, k: nat, k': nat) {
    || f in Woken(s, a, InCond(c)) || f in Evicted(s, a, InCond(c))
    || (StandsAt(Next(s, a), c, f, k') && k' <= k && !(a == NotifyAll(c) && Enabled(s, a))
        && (a == NotifyOne(c) && Enabled(s, a) ==> k' < k))
  }

  lemma StandsInAdvance(s: State, a: Action, c: CondId, f: Fiber, k: nat) returns (k': nat)
    requires StandsAt(s, c, f, k) && QueueAdvances(s, a, InCond(c)) && c in Next(s, a).conds && Counts(s, a, c, k)
    ensures MovesUp(s, a, c, f, k, k')
  {
    var p := InCond(c);
    AdvanceIndex(Queue(s, p), Arrived(s, a, p), Woken(s, a, p), Queue(Next(s, a), p), k);
    k' := if k >= |Woken(s, a, p)| then k - |Woken(s, a, p)| else k;
  }

  lemma StandsInEviction(s: State, a: Action, c: CondId, f: Fiber, k: nat) returns (k': nat)
    requires StandsAt(s, c, f, k) && QueueEvicts(s, a, InCond(c)) && c in Next(s, a).conds && Counts(s, a, c, k)
    ensures MovesUp(s, a, c, f, k, k')
  {
    k' := k;
    if Evicted(s, a, InCond(c))[0] != f {
      k' := EraseIndex(Queue(s, InCond(c)), Evicted(s, a, InCond(c))[0], k);
    }
  }

  /** Unless it leaves, a waiter moves up by one with each notification, and never back. */
  lemma StandsStep(s: State, a: Action, c: CondId, f: Fiber, k: nat) returns (k': nat)
    requires Coherent(s) && StandsAt(s, c, f, k)
    ensures MovesUp(s, a, c, f, k, k')
  {
    QueueStep(s, a, InCond(c));
    CoherentWellFormed(s);
    NotifyCounts(s, a, c, k);
    if QueueAdvances(s, a, InCond(c)) {
      k' := StandsInAdvance(s, a, c, f, k);
    } else {
      k' := StandsInEviction(s, a, c, f, k);
    }
  }

  lemma {:induction false} WaiterReached(s: State, run: seq<Action>, c: CondId, f: Fiber, k: nat, ahead: nat)
    requires Coherent(s) && StandsAt(s, c, f, k) && k <= ahead && Reaches(s, run, c, ahead)
    ensures f in WokenIn(s, run, InCond(c)) || f in EvictedIn(s, run, InCond(c))
    decreases |run|
  {
    var a := run[0];
    CoherentStep(s, a);
    var k' := StandsStep(s, a, c, f, k);
    if f !in Woken(s, a, InCond(c)) && f !in Evicted(s, a, InCond(c)) {
      WaiterReached(Next(s, a), run[1..], c, f, k', if a == NotifyOne(c) && Enabled(s, a) then ahead - 1 else ahead);
    }
  }

  lemma WaitQueues(s: State, c: CondId, m: MutexId)
    requires CanRun(s) && c in s.conds && m in s.mutexes && Step(s, CondWait(c, m)).1 == Suspended
    ensures s.mutexes[m].locked && StandsAt(Next(s, CondWait(c, m)), c, s.control.fiber, |s.conds[c]|)
    ensures m in Next(s, CondWait(c, m)).mutexes
    ensures Next(s, CondWait(c, m)).mutexes[m].locked <==> s.mutexes[m].pending != []
  {
    assert Step(s, CondWait(c, m)) == DoCondWait(s, c, m);
  }

  /**
    No notification is missed. Until a fiber waits the mutex is locked; in the step that hands the mutex on the
    fiber is on the list already, so whoever gets the mutex then and notifies, as often as there were waiters
    before and once more, or once for all, has it woken, unless it was interrupted.
   */
  lemma WaitMissesNothing(s: State, c: CondId, m: MutexId, run: seq<Action>)
    requires Coherent(s) && s.control.Active? && c in s.conds && m in s.mutexes
    requires Step(s, CondWait(c, m)).1 == Suspended
    requires Reaches(Next(s, CondWait(c, m)), run, c, |s.conds[c]|)
    ensures var s1, f := Next(s, CondWait(c, m)), s.control.fiber;
            && s.mutexes[m].locked && m in s1.mutexes
            && (s1.mutexes[m].locked <==> Queue(s, InMutex(m)) != [])
            && (f in WokenIn(s1, run, InCond(c)) || f in EvictedIn(s1, run, InCond(c)))
  {
    CoherentWellFormed(s);
    CoherentStep(s, CondWait(c, m));
    WaitQueues(s, c, m);
    WaiterReached(Next(s, CondWait(c, m)), run, c, s.control.fiber, |s.conds[c]|, |s.conds[c]|);
  }
}
