/** Facts about sequences that several components share. */
module Sequences {

  ghost predicate Distinct<T>(q: seq<T>) {
    forall i, j :: 0 <= i < j < |q| ==> q[i] != q[j]
  }

  function Repeat<T>(x: T, n: nat): (r: seq<T>)
    ensures |r| == n && forall i :: 0 <= i < n ==> r[i] == x
  {
    seq(n, _ => x)
  }

  /** `q` without the first occurrence of `x`: std::find followed by erase. */
  function Erase<T(==)>(q: seq<T>, x: T): (r: seq<T>)
    ensures x !in q ==> r == q
    ensures x in q ==> |r| == |q| - 1
  {
    if q == [] then []
    else if q[0] == x then q[1..]
    else [q[0]] + Erase(q[1..], x)
  }

  lemma {:induction false} EraseMembers<T>(q: seq<T>, x: T)
    requires Distinct(q)
    ensures Distinct(Erase(q, x))
    ensures forall y :: y in Erase(q, x) <==> y in q && y != x
  {
    if q == [] {
    } else if q[0] == x {
      assert q == [q[0]] + q[1..];
    } else {
      EraseMembers(q[1..], x);
      var t := Erase(q[1..], x);
      assert q == [q[0]] + q[1..];
      assert q[0] !in q[1..];
      assert q[0] !in t;
    }
  }

  lemma {:induction false} EraseMultiset<T>(q: seq<T>, x: T)
    requires x in q
    ensures multiset(Erase(q, x)) + multiset{x} == multiset(q)
  {
    assert q == [q[0]] + q[1..];
    if q[0] != x {
      EraseMultiset(q[1..], x);
    }
  }

  lemma EraseHead<T>(q: seq<T>)
    requires q != []
    ensures Erase(q, q[0]) == q[1..]
  {}

  /** `a` can be obtained from `b` by deleting elements, keeping the order. */
  ghost predicate Subsequence<T>(a: seq<T>, b: seq<T>) {
    if a == [] then true
    else if b == [] then false
    else (a[0] == b[0] && Subsequence(a[1..], b[1..])) || Subsequence(a, b[1..])
  }

  lemma {:induction false} SubsequenceSelf<T>(a: seq<T>)
    ensures Subsequence(a, a)
  {
    if a != [] {
      SubsequenceSelf(a[1..]);
    }
  }

  lemma {:induction false} SubsequenceTail<T>(a: seq<T>, b: seq<T>)
    requires a != [] && Subsequence(a, b)
    ensures Subsequence(a[1..], b)
    decreases |b|
  {
    if a[0] == b[0] && Subsequence(a[1..], b[1..]) {
      if a[1..] != [] {
        assert Subsequence(a[1..], b[1..]);
      }
    } else {
      SubsequenceTail(a, b[1..]);
    }
  }

  lemma {:induction false} SubsequenceTransitive<T>(a: seq<T>, b: seq<T>, c: seq<T>)
    requires Subsequence(a, b) && Subsequence(b, c)
    ensures Subsequence(a, c)
    decreases |a| + |b| + |c|
  {
    if a == [] || b == [] {
    } else if b[0] == c[0] && Subsequence(b[1..], c[1..]) {
      if a[0] == b[0] && Subsequence(a[1..], b[1..]) {
        SubsequenceTransitive(a[1..], b[1..], c[1..]);
      } else {
        SubsequenceTransitive(a, b[1..], c[1..]);
      }
    } else {
      SubsequenceTransitive(a, b, c[1..]);
    }
  }

  lemma {:induction false} SubsequenceConcat<T>(a: seq<T>, b: seq<T>, c: seq<T>, d: seq<T>)
    requires Subsequence(a, b) && Subsequence(c, d)
    ensures Subsequence(a + c, b + d)
    decreases |a| + |b|
  {
    if b == [] {
      assert a + c == c && b + d == d;
    } else if a != [] && a[0] == b[0] && Subsequence(a[1..], b[1..]) {
      SubsequenceConcat(a[1..], b[1..], c, d);
      assert (a + c)[1..] == a[1..] + c && (b + d)[1..] == b[1..] + d;
    } else {
      SubsequenceConcat(a, b[1..], c, d);
      assert (b + d)[1..] == b[1..] + d;
    }
  }

  lemma {:induction false} EraseSubsequence<T>(q: seq<T>, x: T)
    ensures Subsequence(Erase(q, x), q)
  {
    if q == [] {
    } else if q[0] == x {
      SubsequenceSelf(q[1..]);
    } else {
      EraseSubsequence(q[1..], x);
      assert ([q[0]] + Erase(q[1..], x))[1..] == Erase(q[1..], x);
    }
  }

  /** Two conservation steps make one. */
  lemma Chain<T>(a: seq<T>, enters: seq<T>, leaves: seq<T>, b: seq<T>, entersLater: seq<T>, leavesLater: seq<T>, c: seq<T>)
    requires a + enters == leaves + b
    requires b + entersLater == leavesLater + c
    ensures a + (enters + entersLater) == (leaves + leavesLater) + c
  {
    assert a + (enters + entersLater) == (a + enters) + entersLater;
    assert (leaves + b) + entersLater == leaves + (b + entersLater);
    assert leaves + (leavesLater + c) == (leaves + leavesLater) + c;
  }

  lemma ConcatAssociative<T>(a: seq<T>, b: seq<T>, c: seq<T>)
    ensures a + (b + c) == (a + b) + c
  {}

  lemma ConcatRest<T>(a: seq<T>, b: seq<T>)
    requires a != []
    ensures (a + b)[0] == a[0] && (a + b)[1..] == a[1..] + b
  {}

  /** `q` without its element at `at`. */
  function Omit<T>(q: seq<T>, at: nat): seq<T>
    requires at < |q|
  {
    q[..at] + q[at + 1..]
  }

  lemma OmitRest<T>(q: seq<T>, at: nat)
    requires at < |q|
    ensures at == 0 ==> Omit(q, at) == q[1..]
    ensures at > 0 ==> Omit(q, at) != [] && Omit(q, at)[0] == q[0] && Omit(q, at)[1..] == Omit(q[1..], at - 1)
  {
    if at > 0 {
      assert q[1..][..at - 1] == q[1..at] && q[1..][at..] == q[at + 1..];
    }
  }

  lemma {:induction false} OmitSubsequence<T>(q: seq<T>, at: nat)
    requires at < |q|
    ensures Subsequence(Omit(q, at), q)
    decreases |q|
  {
    OmitRest(q, at);
    if at == 0 {
      SubsequenceSelf(q[1..]);
    } else {
      OmitSubsequence(q[1..], at - 1);
    }
  }

  /** What leaves a queue and what stays, step after step. */
  lemma SubsequenceChain<T>(q: seq<T>, enters: seq<T>, leaves: seq<T>, q1: seq<T>,
                            entersLater: seq<T>, leavesLater: seq<T>, end: seq<T>)
    requires Subsequence(leaves + q1, q + enters)
    requires Subsequence(leavesLater + end, q1 + entersLater)
    ensures Subsequence((leaves + leavesLater) + end, q + (enters + entersLater))
  {
    SubsequenceSelf(leaves);
    SubsequenceSelf(entersLater);
    SubsequenceConcat(leaves, leaves, leavesLater + end, q1 + entersLater);
    SubsequenceConcat(leaves + q1, q + enters, entersLater, entersLater);
    ConcatAssociative(leaves, leavesLater, end);
    ConcatAssociative(leaves, q1, entersLater);
    ConcatAssociative(q, enters, entersLater);
    SubsequenceTransitive((leaves + leavesLater) + end, (leaves + q1) + entersLater, q + (enters + entersLater));
  }
}
