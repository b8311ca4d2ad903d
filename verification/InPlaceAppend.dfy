/**
  Appending into the spare room of a shared buffer, source after source, when the
  sources may themselves lie in that buffer: which byte ends up where, and exactly
  when that is the same as appending to a copy.
 */
module InPlaceAppend {
  import opened Sequences

  type Byte = bv8

  /** What memcpy leaves in byte `k` of where source `i` goes, when the two overlap: nothing is promised. */
  type Junk = (nat, nat) -> Byte

  /** A stretch of the buffer itself, or bytes that live elsewhere. */
  datatype Source = Inner(off: nat, len: nat) | Outer(bytes: seq<Byte>)

  function Len(s: Source): nat {
    match s
    case Inner(_, len) => len
    case Outer(bytes) => |bytes|
  }

  function Front(srcs: seq<Source>): seq<Source>
    requires srcs != []
  {
    srcs[..|srcs| - 1]
  }

  function Last(srcs: seq<Source>): Source
    requires srcs != []
  {
    srcs[|srcs| - 1]
  }

  function Total(srcs: seq<Source>): nat
    decreases |srcs|
  {
    if srcs == [] then 0 else Total(Front(srcs)) + Len(Last(srcs))
  }

  predicate SourceFits(s: Source, n: nat) {
    s.Inner? ==> s.off + s.len <= n
  }

  /** Sources inside a buffer of `n` bytes, with room for all of them at `start`. */
  ghost predicate Fits(n: nat, start: nat, srcs: seq<Source>) {
    start + Total(srcs) <= n && forall i :: 0 <= i < |srcs| ==> SourceFits(srcs[i], n)
  }

  predicate Overlap(p: nat, n: nat, q: nat, m: nat) {
    n > 0 && m > 0 && p < q + m && q < p + n
  }

  /** A source that overlaps the place it is copied to, without being that place. */
  predicate Smears(s: Source, at: nat) {
    s.Inner? && s.off != at && Overlap(s.off, s.len, at, s.len)
  }

  /**
    Byte `p` after the loop of append, in which each source is read when its turn comes. memcpy promises
    nothing about a source that overlaps its own destination; any bytes may come out.
   */
  ghost function ByteAfter(buf: seq<Byte>, start: nat, srcs: seq<Source>, junk: Junk, p: nat): Byte
    requires Fits(|buf|, start, srcs) && p < |buf|
    decreases |srcs|
  {
    if srcs == [] then buf[p]
    else
      var at, s := start + Total(Front(srcs)), Last(srcs);
      if p < at || at + Len(s) <= p then ByteAfter(buf, start, Front(srcs), junk, p)
      else if s.Outer? then s.bytes[p - at]
      else if Smears(s, at) then junk(|srcs| - 1, p - at)
      else ByteAfter(buf, start, Front(srcs), junk, s.off + (p - at))
  }

  /** Byte `k` of a source as it was to begin with. */
  function ByteOf(buf: seq<Byte>, s: Source, k: nat): Byte
    requires SourceFits(s, |buf|) && k < Len(s)
  {
    match s
    case Inner(off, _) => buf[off + k]
    case Outer(bytes) => bytes[k]
  }

  /** Byte `p` when all sources are taken as they were. */
  ghost function ByteWanted(buf: seq<Byte>, start: nat, srcs: seq<Source>, p: nat): Byte
    requires Fits(|buf|, start, srcs) && p < |buf|
    decreases |srcs|
  {
    if srcs == [] then buf[p]
    else
      var at, s := start + Total(Front(srcs)), Last(srcs);
      if p < at || at + Len(s) <= p then ByteWanted(buf, start, Front(srcs), p) else ByteOf(buf, s, p - at)
  }

  // ---------------------------------------------------------------- where the bytes go

  function Dest(start: nat, srcs: seq<Source>, j: nat): nat
    requires j <= |srcs|
  {
    start + Total(srcs[..j])
  }

  lemma PrefixOfFront(srcs: seq<Source>, j: nat)
    requires j < |srcs|
    ensures Front(srcs)[..j] == srcs[..j]
  {}

  lemma {:induction false} TotalPrefix(srcs: seq<Source>, j: nat)
    requires j < |srcs|
    ensures Total(srcs[..j]) + Len(srcs[j]) == Total(srcs[..j + 1]) <= Total(srcs)
    decreases |srcs|
  {
    assert Front(srcs[..j + 1]) == srcs[..j];
    if j < |srcs| - 1 {
      TotalPrefix(Front(srcs), j);
      PrefixOfFront(srcs, j);
      PrefixOfFront(srcs, j + 1);
    } else {
      assert srcs[..j + 1] == srcs;
    }
  }

  /** Where source `j` belongs there are to be the bytes of source `j`. */
  lemma {:induction false} WantedAt(buf: seq<Byte>, start: nat, srcs: seq<Source>, j: nat, k: nat)
    requires Fits(|buf|, start, srcs) && j < |srcs| && k < Len(srcs[j])
    ensures Dest(start, srcs, j) + k < |buf|
    ensures ByteWanted(buf, start, srcs, Dest(start, srcs, j) + k) == ByteOf(buf, srcs[j], k)
    decreases |srcs|
  {
    TotalPrefix(srcs, j);
    PrefixOfFront(srcs, j);
    if j < |srcs| - 1 {
      TotalPrefix(Front(srcs), j);
      WantedAt(buf, start, Front(srcs), j, k);
    }
  }

  /** Nothing outside the appended region changes, whatever the sources are. */
  lemma {:induction false} OnlyTheTailChanges(buf: seq<Byte>, start: nat, srcs: seq<Source>, junk: Junk, p: nat)
    requires Fits(|buf|, start, srcs) && p < |buf| && (p < start || start + Total(srcs) <= p)
    ensures ByteAfter(buf, start, srcs, junk, p) == buf[p] && ByteWanted(buf, start, srcs, p) == buf[p]
    decreases |srcs|
  {
    if srcs != [] {
      OnlyTheTailChanges(buf, start, Front(srcs), junk, p);
    }
  }

  /** The source that byte `t` of the appended bytes comes from. */
  lemma {:induction false} Locate(srcs: seq<Source>, t: nat) returns (j: nat, k: nat)
    requires t < Total(srcs)
    ensures j < |srcs| && k < Len(srcs[j]) && Total(srcs[..j]) + k == t
    decreases |srcs|
  {
    if t < Total(Front(srcs)) {
      j, k := Locate(Front(srcs), t);
    } else {
      j, k := |srcs| - 1, t - Total(Front(srcs));
    }
    PrefixOfFront(srcs, j);
  }

  // ---------------------------------------------------------------- when it is the same as with a copy

  /** Source `i` reads nothing that source `j`, copied before it, has changed. */
  ghost predicate PairHarmless(start: nat, srcs: seq<Source>, j: nat, i: nat)
    requires j < i < |srcs|
  {
    srcs[i].Inner? && Overlap(srcs[i].off, srcs[i].len, Dest(start, srcs, j), Len(srcs[j])) ==>
      srcs[j].Inner? && srcs[j].off == Dest(start, srcs, j)
  }

  /** Source `i` does not overlap where it goes itself, unless it is there already. */
  ghost predicate SelfHarmless(start: nat, srcs: seq<Source>, i: nat)
    requires i < |srcs|
  {
    !Smears(srcs[i], Dest(start, srcs, i))
  }

  /** No source overlaps where it or an earlier one goes, except that a source may be copied onto itself. */
  ghost predicate Harmless(start: nat, srcs: seq<Source>) {
    && (forall i: nat {:trigger SelfHarmless(start, srcs, i)} :: i < |srcs| ==> SelfHarmless(start, srcs, i))
    && (forall j: nat, i: nat {:trigger PairHarmless(start, srcs, j, i)} ::
          j < i < |srcs| ==> PairHarmless(start, srcs, j, i))
  }

  /** Source `i` reads byte `p`, where source `j`, `i` itself or an earlier one, puts a byte of another place. */
  ghost predicate ReadsReplaced(start: nat, srcs: seq<Source>, j: nat, i: nat, p: nat)
    requires j <= i < |srcs|
  {
    && srcs[i].Inner? && srcs[i].off <= p < srcs[i].off + srcs[i].len
    && Dest(start, srcs, j) <= p < Dest(start, srcs, j) + Len(srcs[j])
    && !(srcs[j].Inner? && srcs[j].off == Dest(start, srcs, j))
  }

  /** Harm is to read a byte that was replaced. */
  lemma HarmlessIff(start: nat, srcs: seq<Source>)
    ensures Harmless(start, srcs) <==>
              forall j: nat, i: nat, p: nat {:trigger ReadsReplaced(start, srcs, j, i, p)} ::
                j <= i < |srcs| ==> !ReadsReplaced(start, srcs, j, i, p)
  {
    forall j: nat, i: nat, p: nat | j <= i < |srcs| && ReadsReplaced(start, srcs, j, i, p)
      ensures !Harmless(start, srcs)
    {
      if j == i {
        assert !SelfHarmless(start, srcs, i);
      } else {
        assert !PairHarmless(start, srcs, j, i);
      }
    }
    if !Harmless(start, srcs) {
      var j, i := HarmFound(start, srcs);
      var p := if srcs[i].off < Dest(start, srcs, j) then Dest(start, srcs, j) else srcs[i].off;
      assert ReadsReplaced(start, srcs, j, i, p);
    }
  }

  lemma HarmFound(start: nat, srcs: seq<Source>) returns (j: nat, i: nat)
    requires !Harmless(start, srcs)
    ensures j <= i < |srcs| && if j == i then !SelfHarmless(start, srcs, i) else !PairHarmless(start, srcs, j, i)
  {
    if k: nat :| k < |srcs| && !SelfHarmless(start, srcs, k) {
      j, i := k, k;
    } else {
      j, i :| j < i < |srcs| && !PairHarmless(start, srcs, j, i);
    }
  }

  lemma FrontHarmless(start: nat, srcs: seq<Source>)
    requires srcs != [] && Harmless(start, srcs)
    ensures Harmless(start, Front(srcs))
  {
    forall i: nat | i < |srcs| - 1
      ensures SelfHarmless(start, Front(srcs), i)
    {
      assert SelfHarmless(start, srcs, i);
      PrefixOfFront(srcs, i);
    }
    forall j: nat, i: nat | j < i < |srcs| - 1
      ensures PairHarmless(start, Front(srcs), j, i)
    {
      assert PairHarmless(start, srcs, j, i);
      PrefixOfFront(srcs, j);
    }
  }

  /** What the last source reads is still, or again, what it was. */
  lemma ByteUntouched(buf: seq<Byte>, start: nat, srcs: seq<Source>, k: nat)
    requires srcs != [] && Fits(|buf|, start, srcs) && Harmless(start, srcs) && Last(srcs).Inner? && k < Len(Last(srcs))
    ensures Last(srcs).off + k < |buf|
    ensures ByteWanted(buf, start, Front(srcs), Last(srcs).off + k) == buf[Last(srcs).off + k]
  {
    assert SourceFits(Last(srcs), |buf|);
    var front, p := Front(srcs), Last(srcs).off + k;
    if start <= p < start + Total(front) {
      var j, m := Locate(front, p - start);
      PrefixOfFront(srcs, j);
      assert PairHarmless(start, srcs, j, |front|);
      WantedAt(buf, start, front, j, m);
    } else {
      OnlyTheTailChanges(buf, start, front, (_, _) => 0, p);
    }
  }

  lemma LastInPlace(start: nat, srcs: seq<Source>)
    requires srcs != []
    ensures Dest(start, srcs, |srcs| - 1) == start + Total(Front(srcs))
  {}

  lemma {:induction false} HarmlessAgrees(buf: seq<Byte>, start: nat, srcs: seq<Source>, junk: Junk, p: nat)
    requires Fits(|buf|, start, srcs) && Harmless(start, srcs) && p < |buf|
    ensures ByteAfter(buf, start, srcs, junk, p) == ByteWanted(buf, start, srcs, p)
    decreases |srcs|
  {
    if srcs != [] {
      FrontHarmless(start, srcs);
      var at, s := start + Total(Front(srcs)), Last(srcs);
      if p < at || at + Len(s) <= p {
        HarmlessAgrees(buf, start, Front(srcs), junk, p);
      } else if s.Inner? {
        assert SelfHarmless(start, srcs, |srcs| - 1);
        LastInPlace(start, srcs);
        ByteUntouched(buf, start, srcs, p - at);
        HarmlessAgrees(buf, start, Front(srcs), junk, s.off + (p - at));
      }
    }
  }

  // ---------------------------------------------------------------- otherwise it goes wrong for some bytes

  ghost predicate SameShape(a: seq<Source>, b: seq<Source>) {
    |a| == |b| && forall i :: 0 <= i < |a| ==> if a[i].Inner? then b[i] == a[i] else b[i].Outer? && Len(b[i]) == Len(a[i])
  }

  lemma {:induction false} SameTotals(a: seq<Source>, b: seq<Source>)
    requires SameShape(a, b)
    ensures Total(a) == Total(b)
    decreases |a|
  {
    if a != [] {
      SameTotals(Front(a), Front(b));
    }
  }

  lemma SameShapeFits(n: nat, start: nat, a: seq<Source>, b: seq<Source>)
    requires SameShape(a, b) && Fits(n, start, a)
    ensures Fits(n, start, b)
  {
    SameTotals(a, b);
  }

  lemma SameShapeHarmless(start: nat, a: seq<Source>, b: seq<Source>)
    requires SameShape(a, b) && Harmless(start, a)
    ensures Harmless(start, b)
  {
    forall i: nat | i < |b|
      ensures SelfHarmless(start, b, i)
    {
      assert SelfHarmless(start, a, i);
      SameTotals(a[..i], b[..i]);
    }
    forall j: nat, i: nat | j < i < |b|
      ensures PairHarmless(start, b, j, i)
    {
      assert PairHarmless(start, a, j, i);
      SameTotals(a[..j], b[..j]);
    }
  }

  /** The last source reads byte `p`, which source `j` has replaced by a byte of another place. */
  ghost predicate Clash(start: nat, front: seq<Source>, s: Source, j: nat, p: nat) {
    && j < |front| && s.Inner? && s.off <= p < s.off + s.len
    && Dest(start, front, j) <= p < Dest(start, front, j) + Len(front[j])
    && !(front[j].Inner? && front[j].off == Dest(start, front, j))
  }

  lemma FindClash(start: nat, srcs: seq<Source>) returns (j: nat, p: nat)
    requires srcs != [] && Harmless(start, Front(srcs)) && !Harmless(start, srcs)
    requires !Smears(Last(srcs), start + Total(Front(srcs)))
    ensures Clash(start, Front(srcs), Last(srcs), j, p)
  {
    forall i: nat | i < |srcs|
      ensures SelfHarmless(start, srcs, i)
    {
      PrefixOfFront(srcs, i);
      LastInPlace(start, srcs);
      assert i < |srcs| - 1 ==> SelfHarmless(start, Front(srcs), i);
    }
    var b: nat, i: nat :| b < i < |srcs| && !PairHarmless(start, srcs, b, i);
    var front, s := Front(srcs), Last(srcs);
    PrefixOfFront(srcs, b);
    assert i < |front| ==> PairHarmless(start, front, b, i);
    j := b;
    p := if s.off < Dest(start, front, j) then Dest(start, front, j) else s.off;
  }

  function Blank(srcs: seq<Source>): (r: seq<Source>)
    ensures SameShape(srcs, r)
    ensures forall i :: 0 <= i < |r| && r[i].Outer? ==> r[i].bytes == Repeat(0, |r[i].bytes|)
    decreases |srcs|
  {
    if srcs == [] then []
    else
      var s := Last(srcs);
      Blank(Front(srcs)) + [if s.Inner? then s else Outer(Repeat(0, Len(s)))]
  }

  lemma ZeroByte(n: nat, p: nat, s: Source, k: nat)
    requires p < n && SourceFits(s, n) && k < Len(s)
    requires if s.Inner? then s.off + k != p else s.bytes == Repeat(0, |s.bytes|)
    ensures ByteOf(Repeat(0, n)[p := 1], s, k) == 0
  {}

  /** The bytes `buf`, and what memcpy leaves, make the two differ at `q`. */
  ghost predicate Differs(buf: seq<Byte>, start: nat, srcs: seq<Source>, junk: Junk, q: nat) {
    && Fits(|buf|, start, srcs) && q < |buf|
    && ByteAfter(buf, start, srcs, junk, q) != ByteWanted(buf, start, srcs, q)
  }

  /** With all bytes zero but one, the last source should read a one and reads a zero. */
  lemma ClashShows(n: nat, start: nat, srcs: seq<Source>, j: nat, p: nat) returns (buf: seq<Byte>, q: nat)
    requires srcs != [] && Fits(n, start, srcs) && Harmless(start, Front(srcs))
    requires Clash(start, Front(srcs), Last(srcs), j, p) && !Smears(Last(srcs), start + Total(Front(srcs)))
    requires srcs[j].Outer? ==> srcs[j].bytes == Repeat(0, |srcs[j].bytes|)
    ensures |buf| == n && Differs(buf, start, srcs, (_, _) => 1, q)
  {
    var front, s := Front(srcs), Last(srcs);
    assert SourceFits(s, n) && SourceFits(srcs[j], n);
    buf := Repeat(0, n)[p := 1];
    var k: nat := p - Dest(start, front, j);
    WantedAt(buf, start, front, j, k);
    ZeroByte(n, p, front[j], k);
    HarmlessAgrees(buf, start, front, (_, _) => 1, p);
    q := start + Total(front) + (p - s.off);
  }

  /** A buffer of zeroes, of which memcpy makes ones. */
  lemma SmearShows(n: nat, start: nat, srcs: seq<Source>)
    requires srcs != [] && Fits(n, start, srcs) && Smears(Last(srcs), start + Total(Front(srcs)))
    ensures Differs(Repeat(0, n), start, srcs, (_, _) => 1, start + Total(Front(srcs)))
  {
    assert SourceFits(Last(srcs), n);
  }

  lemma {:induction false} HarmfulDisagrees(n: nat, start: nat, srcs: seq<Source>) returns (buf: seq<Byte>, q: nat)
    requires Fits(n, start, srcs) && !Harmless(start, srcs)
    requires forall i :: 0 <= i < |srcs| && srcs[i].Outer? ==> srcs[i].bytes == Repeat(0, |srcs[i].bytes|)
    ensures |buf| == n && Differs(buf, start, srcs, (_, _) => 1, q)
    decreases |srcs|
  {
    var front := Front(srcs);
    if !Harmless(start, front) {
      buf, q := HarmfulDisagrees(n, start, front);
      if q < start || start + Total(front) <= q {
        OnlyTheTailChanges(buf, start, front, (_, _) => 1, q);
      }
    } else if Smears(Last(srcs), start + Total(front)) {
      buf, q := Repeat(0, n), start + Total(front);
      SmearShows(n, start, srcs);
    } else {
      var j, p := FindClash(start, srcs);
      buf, q := ClashShows(n, start, srcs, j, p);
    }
  }

  /** Whatever the bytes are, and whatever memcpy does where it promises nothing. */
  ghost predicate AlwaysAgrees(n: nat, start: nat, srcs: seq<Source>) {
    forall buf: seq<Byte>, b: seq<Source>, junk: Junk, p: nat {:trigger ByteAfter(buf, start, b, junk, p)} ::
      |buf| == n && SameShape(srcs, b) && Fits(n, start, b) && p < n ==>
        ByteAfter(buf, start, b, junk, p) == ByteWanted(buf, start, b, p)
  }

  /**
    Appending in place does what appending to a copy does, whatever the bytes are, exactly when no source
    overlaps the place where it or an earlier source goes, except that a source may be copied onto itself.
   */
  lemma InPlaceAgreesIff(n: nat, start: nat, srcs: seq<Source>)
    requires Fits(n, start, srcs)
    ensures AlwaysAgrees(n, start, srcs) <==> Harmless(start, srcs)
  {
    if Harmless(start, srcs) {
      forall buf: seq<Byte>, b: seq<Source>, junk: Junk, p: nat
        | |buf| == n && SameShape(srcs, b) && Fits(n, start, b) && p < n
        ensures ByteAfter(buf, start, b, junk, p) == ByteWanted(buf, start, b, p)
      {
        SameShapeHarmless(start, srcs, b);
        HarmlessAgrees(buf, start, b, junk, p);
      }
    } else {
      var b := Blank(srcs);
      SameShapeFits(n, start, srcs, b);
      if Harmless(start, b) {
        SameShapeHarmless(start, b, srcs);
      }
      var buf, q := HarmfulDisagrees(n, start, b);
    }
  }

  /** A single source is enough: three bytes from 1 on, appended at 2. */
  lemma OwnTailDisagrees()
    ensures !AlwaysAgrees(8, 2, [Inner(1, 3)])
  {
    var srcs := [Inner(1, 3)];
    assert Front(srcs) == [];
    assert Total(srcs) == Total(Front(srcs)) + 3;
    assert !SelfHarmless(2, srcs, 0);
    InPlaceAgreesIff(8, 2, srcs);
  }

  /** In particular sources clear of the room being filled are harmless. */
  lemma ClearIsHarmless(start: nat, srcs: seq<Source>)
    requires forall i :: 0 <= i < |srcs| && srcs[i].Inner? ==> !Overlap(srcs[i].off, srcs[i].len, start, Total(srcs))
    ensures Harmless(start, srcs)
  {
    forall i: nat | i < |srcs|
      ensures SelfHarmless(start, srcs, i)
    {
      TotalPrefix(srcs, i);
    }
    forall j: nat, i: nat | j < i < |srcs|
      ensures PairHarmless(start, srcs, j, i)
    {
      TotalPrefix(srcs, j);
    }
  }
}
