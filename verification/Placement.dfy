/** Where each fiber is, and how a step moves fibers between places. */
module Placement {
  import opened Sequences
  import opened Runtime

  datatype Place =
    | OnCpu | Posted
    | InMutex(mutex: MutexId) | InRMutex(rmutex: RMutexId)
    | InCond(cond: CondId) | InFuture(promise: PromiseId)
    | InJoin(target: Fiber)
    | AtEnd

  type Places = map<Fiber, Place>

  function Targets(strand: seq<Resume>): seq<Fiber> {
    seq(|strand|, i requires 0 <= i < |strand| => strand[i].fiber)
  }

  function JoinSlot(s: State, t: Fiber): seq<Fiber> {
    if t in s.fibers && s.fibers[t].status.Running? && s.fibers[t].joiner.Joined?
    then [s.fibers[t].joiner.fiber] else []
  }

  /** The fibers at a place, in order. Finished fibers form no queue. */
  function Queue(s: State, p: Place): seq<Fiber> {
    match p
    case OnCpu => if s.control.Active? then [s.control.fiber] else []
    case Posted => Targets(s.strand)
    case InMutex(m) => if m in s.mutexes then s.mutexes[m].pending else []
    case InRMutex(m) => if m in s.rmutexes then s.rmutexes[m].pending else []
    case InCond(c) => if c in s.conds then s.conds[c] else []
    case InFuture(p) => if p in s.promises then s.promises[p].waiters else []
    case InJoin(t) => JoinSlot(s, t)
    case AtEnd => []
  }

  ghost predicate Holds(q: seq<Fiber>, w: Places, p: Place) {
    Distinct(q) && forall f :: f in q <==> f in w && w[f] == p
  }

  /** `w` says where every listed fiber is, and every queue agrees with it. */
  ghost predicate Placed(s: State, w: Places) {
    && w.Keys == s.fibers.Keys
    && (forall p: Place {:trigger Holds(Queue(s, p), w, p)} :: p != AtEnd ==> Holds(Queue(s, p), w, p))
    && (forall f :: f in w ==> (w[f] == AtEnd <==> s.fibers[f].status.Finished?))
  }

  lemma TargetsAppend(a: seq<Resume>, b: seq<Resume>)
    ensures Targets(a + b) == Targets(a) + Targets(b)
  {}

  lemma TargetsTail(a: seq<Resume>)
    requires a != []
    ensures Targets(a) == [a[0].fiber] + Targets(a[1..])
  {}

  lemma HoldsOther(q: seq<Fiber>, w: Places, p: Place, f: Fiber, to: Place)
    requires Holds(q, w, p) && f in w && w[f] != p && to != p
    ensures Holds(q, w[f := to], p)
  {}

  lemma HoldsErase(q: seq<Fiber>, w: Places, p: Place, f: Fiber, to: Place)
    requires Holds(q, w, p) && f in w && w[f] == p && to != p
    ensures Holds(Erase(q, f), w[f := to], p)
  {
    EraseMembers(q, f);
  }

  lemma HoldsAppend(q: seq<Fiber>, w: Places, p: Place, f: Fiber)
    requires Holds(q, w, p) && (f in w ==> w[f] != p)
    ensures Holds(q + [f], w[f := p], p)
  {
    var w' := w[f := p];
    forall g ensures g in q + [f] <==> g in w' && w'[g] == p {
    }
  }

  /** Fiber `f` leaves the queue of `from` and joins the end of the queue of `to`. */
  ghost predicate Moves(s: State, s': State, f: Fiber, from: Place, to: Place) {
    && s'.fibers.Keys == s.fibers.Keys
    && (forall g :: g in s.fibers ==> s'.fibers[g].status == s.fibers[g].status)
    && Queue(s', from) == Erase(Queue(s, from), f)
    && Queue(s', to) == Queue(s, to) + [f]
    && (forall p: Place :: p != from && p != to ==> Queue(s', p) == Queue(s, p))
  }

  lemma Move(s: State, s': State, w: Places, f: Fiber, from: Place, to: Place) returns (w': Places)
    requires Placed(s, w) && from != to && from != AtEnd && to != AtEnd
    requires f in Queue(s, from)
    requires Moves(s, s', f, from, to)
    ensures w' == w[f := to] && Placed(s', w')
  {
    w' := w[f := to];
    assert Holds(Queue(s, from), w, from);
    assert Holds(Queue(s, to), w, to);
    forall p: Place | p != AtEnd ensures Holds(Queue(s', p), w', p) {
      assert Holds(Queue(s, p), w, p);
      if p == from {
        HoldsErase(Queue(s, p), w, p, f, to);
      } else if p == to {
        HoldsAppend(Queue(s, p), w, p, f);
      } else {
        HoldsOther(Queue(s, p), w, p, f, to);
      }
    }
  }

  /** Everyone at `from` is posted to the strand, in order. */
  ghost predicate MovesAll(s: State, s': State, from: Place) {
    && s'.fibers == s.fibers
    && Queue(s', from) == []
    && Queue(s', Posted) == Queue(s, Posted) + Queue(s, from)
    && (forall p: Place :: p != from && p != Posted ==> Queue(s', p) == Queue(s, p))
  }

  lemma MoveAll(s: State, s': State, w: Places, from: Place) returns (w': Places)
    requires Placed(s, w) && from != Posted && from != AtEnd
    requires MovesAll(s, s', from)
    ensures w' == map f | f in w :: if w[f] == from then Posted else w[f]
    ensures Placed(s', w')
  {
    w' := map f | f in w :: if w[f] == from then Posted else w[f];
    assert Holds(Queue(s, from), w, from);
    assert Holds(Queue(s, Posted), w, Posted);
    forall p: Place | p != AtEnd ensures Holds(Queue(s', p), w', p) {
      assert Holds(Queue(s, p), w, p);
      if p == Posted {
        var q := Queue(s, Posted) + Queue(s, from);
        forall i, j | 0 <= i < j < |q| ensures q[i] != q[j] {
          if i < |Queue(s, Posted)| <= j {
            assert q[i] in Queue(s, Posted) && q[j] in Queue(s, from);
          }
        }
      }
    }
  }

  /** The queues do not change, and neither does who has finished. */
  ghost predicate Stays(s: State, s': State) {
    && s'.fibers.Keys == s.fibers.Keys
    && (forall g :: g in s.fibers ==> s'.fibers[g].status == s.fibers[g].status)
    && (forall p: Place :: Queue(s', p) == Queue(s, p))
  }

  lemma Stay(s: State, s': State, w: Places)
    requires Placed(s, w) && Stays(s, s')
    ensures Placed(s', w)
  {
    forall p: Place | p != AtEnd ensures Holds(Queue(s', p), w, p) {
      assert Holds(Queue(s, p), w, p);
    }
  }

  /** A listed fiber that sits in no queue is taken off the list. */
  lemma Unlist(s: State, s': State, w: Places, f: Fiber) returns (w': Places)
    requires Placed(s, w) && f in w && w[f] == AtEnd
    requires s'.fibers == s.fibers - {f}
    requires forall p: Place :: Queue(s', p) == Queue(s, p)
    ensures w' == w - {f} && Placed(s', w')
  {
    w' := w - {f};
    forall p: Place | p != AtEnd ensures Holds(Queue(s', p), w', p) {
      assert Holds(Queue(s, p), w, p);
    }
  }

  /** The members of a place. */
  lemma Members(s: State, w: Places, p: Place)
    requires Placed(s, w) && p != AtEnd
    ensures Holds(Queue(s, p), w, p)
  {}

  lemma RunningPlace(s: State, w: Places)
    requires Placed(s, w) && s.control.Active?
    ensures s.control.fiber in w && w[s.control.fiber] == OnCpu
  {
    Members(s, w, OnCpu);
    assert s.control.fiber in Queue(s, OnCpu);
  }

  lemma PostedPlace(s: State, w: Places, i: nat)
    requires Placed(s, w) && i < |s.strand|
    ensures s.strand[i].fiber in w && w[s.strand[i].fiber] == Posted
  {
    Members(s, w, Posted);
    assert Targets(s.strand)[i] in Queue(s, Posted);
  }
}
