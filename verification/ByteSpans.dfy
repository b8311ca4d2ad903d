/** Byte spans: views with a size and a capacity into buffers that they may share. */
module ByteSpans {
  import opened Wrappers
  import opened InPlaceAppend

  const INTEGER_MAX: nat := 0x7FFF_FFFF_FFFF_FFFF

  datatype Errc = EINVAL | OutOfRange | Overflow

  /** A view of `size` bytes from `off` on that may grow to `capacity`; a null span has no buffer. */
  datatype Span = NullSpan | Span(data: array<Byte>, off: nat, viewSize: nat, viewCapacity: nat)

  datatype Operand = NilArg | StrArg(bytes: seq<Byte>) | SpanArg(span: Span)

  function Size(s: Span): nat {
    if s.Span? then s.viewSize else 0
  }

  function Capacity(s: Span): nat {
    if s.Span? then s.viewCapacity else 0
  }

  /** Every view reaches, with its capacity, to the end of its buffer. */
  ghost predicate Valid(s: Span) {
    s.Span? ==> s.viewSize <= s.viewCapacity && s.viewCapacity > 0 && s.off + s.viewCapacity == s.data.Length <= INTEGER_MAX
  }

  ghost predicate ValidArg(o: Operand) {
    match o
    case SpanArg(s) => Valid(s)
    case StrArg(bytes) => |bytes| <= INTEGER_MAX
    case NilArg => true
  }

  function Frame(s: Span): set<object> {
    if s.Span? then {s.data} else {}
  }

  function Contents(s: Span): (r: seq<Byte>)
    requires Valid(s)
    reads Frame(s)
    ensures |r| == Size(s)
  {
    if s.Span? then s.data[s.off..s.off + s.viewSize] else []
  }

  // ---------------------------------------------------------------- views

  method New(length: int, capacity: Option<int>) returns (r: Result<Span, Errc>)
    requires length <= INTEGER_MAX && (capacity.Some? ==> capacity.value <= INTEGER_MAX)
    ensures var cap := if capacity.Some? then capacity.value else length;
            && (r.Ok? <==> 0 <= length <= cap)
            && (r.Ok? ==> Valid(r.value) && Size(r.value) == length && Capacity(r.value) == cap && fresh(Frame(r.value)))
            && (r.Err? ==> r.error == EINVAL)
  {
    var cap := if capacity.Some? then capacity.value else length;
    if length < 0 || cap < 0 || length > cap {
      return Err(EINVAL);
    }
    if cap == 0 {
      return Ok(NullSpan);
    }
    var data := new Byte[cap];
    r := Ok(Span(data, 0, length, cap));
  }

  /** 1-based and inclusive, as in Lua; `end` may go beyond the size, up to the capacity. */
  function Slice(s: Span, start: Option<int>, end: Option<int>): (r: Result<Span, Errc>)
    requires Valid(s)
    ensures r.Ok? ==> Valid(r.value) && Frame(r.value) <= Frame(s)
  {
    var a := if start.Some? then start.value else 1;
    var b := if end.Some? then end.value else Size(s);
    if a < 1 || a - 1 > b || b > Capacity(s) then Err(OutOfRange)
    else
      var capacity := Capacity(s) - a + 1;
      if capacity == 0 then Ok(NullSpan) else Ok(Span(s.data, s.off + a - 1, b - a + 1, capacity))
  }

  /** A slice shows bytes `a` to `b` of the buffer behind the span, spare ones included; there are no others. */
  lemma SliceShows(s: Span, a: int, b: int)
    requires Valid(s)
    ensures Slice(s, Some(a), Some(b)).Ok? <==> 1 <= a <= b + 1 <= Capacity(s) + 1
    ensures Slice(s, Some(a), Some(b)).Err? ==> Slice(s, Some(a), Some(b)).error.OutOfRange?
    ensures Slice(s, Some(a), Some(b)).Ok? ==>
            var r := Slice(s, Some(a), Some(b)).value;
            && Size(r) == b - a + 1
            && (s.Span? ==> Contents(r) == s.data[s.off + a - 1..s.off + b])
            && (b <= Size(s) ==> Contents(r) == Contents(s)[a - 1..b])
  {
    if s.Span? && 1 <= a <= b + 1 && b <= Size(s) {
      PartOfView(s.data[..], s.off, s.viewSize, a - 1, b);
      assert s.data[..][s.off..s.off + s.viewSize] == s.data[s.off..s.off + s.viewSize];
      assert s.data[..][s.off + a - 1..s.off + b] == s.data[s.off + a - 1..s.off + b];
    }
  }

  lemma PartOfView(data: seq<Byte>, off: nat, size: nat, a: nat, b: nat)
    requires a <= b <= size && off + size <= |data|
    ensures data[off..off + size][a..b] == data[off + a..off + b]
  {
    forall k {:trigger data[off..off + size][a..b][k]} | 0 <= k < b - a
      ensures data[off..off + size][a..b][k] == data[off + a..off + b][k]
    {
      assert data[off..off + size][a + k] == data[off + a + k];
    }
  }

  /** Slicing a slice is slicing once: positions add up, errors included. */
  lemma SliceOfSlice(s: Span, a: int, b: int, c: int, d: int)
    requires Valid(s) && Slice(s, Some(a), Some(b)).Ok? && c >= 1
    ensures Slice(Slice(s, Some(a), Some(b)).value, Some(c), Some(d)) == Slice(s, Some(a + c - 1), Some(a + d - 1))
  {}

  /** Bounds left out are those of the span; a span can be grown to its capacity. */
  lemma SliceGrows(s: Span, a: int, b: int)
    requires Valid(s)
    ensures Slice(s, Some(a), None) == Slice(s, Some(a), Some(Size(s))) && Slice(s, None, Some(b)) == Slice(s, Some(1), Some(b))
    ensures Slice(s, None, None) == Ok(s)
    ensures var r := Slice(s, None, Some(Capacity(s)));
            r.Ok? && Size(r.value) == Capacity(s) && Contents(s) <= Contents(r.value)
  {}

  method SetByte(s: Span, idx: int, value: int) returns (r: Result<(), Errc>)
    requires Valid(s)
    modifies Frame(s)
    ensures r.Ok? <==> 1 <= idx <= Size(s) && 0 <= value <= 0xFF
    ensures if r.Ok? then Contents(s) == old(Contents(s))[idx - 1 := value as bv8]
            else r.error == OutOfRange && Contents(s) == old(Contents(s))
    ensures s.Span? ==> forall p :: 0 <= p < s.data.Length && p != s.off + idx - 1 ==> s.data[p] == old(s.data[p])
  {
    if idx < 1 || idx > Size(s) || value < 0 || value > 0xFF {
      return Err(OutOfRange);
    }
    s.data[s.off + idx - 1] := value as bv8;
    r := Ok(());
  }

  // ---------------------------------------------------------------- copying

  function OperandSize(o: Operand): nat {
    match o
    case NilArg => 0
    case StrArg(bytes) => |bytes|
    case SpanArg(s) => Size(s)
  }

  function OperandFrame(o: Operand): set<object> {
    if o.SpanArg? then Frame(o.span) else {}
  }

  function OperandBytes(o: Operand): (r: seq<Byte>)
    requires ValidArg(o)
    reads OperandFrame(o)
    ensures |r| == OperandSize(o)
  {
    match o
    case NilArg => []
    case StrArg(bytes) => bytes
    case SpanArg(s) => Contents(s)
  }

  method PutBytes(data: array<Byte>, at: nat, bytes: seq<Byte>)
    requires at + |bytes| <= data.Length
    modifies data
    ensures forall p :: 0 <= p < data.Length ==> data[p] == if at <= p < at + |bytes| then bytes[p - at] else old(data[p])
  {
    var i := 0;
    while i < |bytes|
      invariant i <= |bytes|
      invariant forall p :: 0 <= p < data.Length ==> data[p] == if at <= p < at + i then bytes[p - at] else old(data[p])
    {
      data[at + i] := bytes[i];
      i := i + 1;
    }
  }

  lemma PutView(before: seq<Byte>, now: seq<Byte>, off: nat, size: nat, bytes: seq<Byte>)
    requires |now| == |before| && off + size <= |now| && |bytes| <= size
    requires forall p {:trigger now[p]} :: 0 <= p < |now| ==>
               now[p] == if off <= p < off + |bytes| then bytes[p - off] else before[p]
    ensures now[off..off + size] == bytes + before[off..off + size][|bytes|..]
  {}

  /** memmove: the source is read as a whole before anything is written, so the two may overlap. */
  method Copy(s: Span, src: Operand) returns (r: Result<nat, Errc>)
    requires Valid(s) && ValidArg(src)
    modifies Frame(s)
    ensures if src.NilArg? then r == Err(EINVAL) && Contents(s) == old(Contents(s))
            else r.Ok? && r.value == if OperandSize(src) < Size(s) then OperandSize(src) else Size(s)
    ensures r.Ok? ==> Contents(s) == old(OperandBytes(src))[..r.value] + old(Contents(s))[r.value..]
    ensures s.Span? ==> forall p :: 0 <= p < s.data.Length && !(s.off <= p < s.off + Size(s)) ==> s.data[p] == old(s.data[p])
  {
    if src.NilArg? {
      return Err(EINVAL);
    }
    var bytes := OperandBytes(src);
    var count := if |bytes| < Size(s) then |bytes| else Size(s);
    if count != 0 {
      CopyFront(s, bytes[..count]);
    }
    r := Ok(count);
  }

  /** The first bytes of the view are replaced. */
  method CopyFront(s: Span, bytes: seq<Byte>)
    requires Valid(s) && s.Span? && |bytes| <= Size(s)
    modifies s.data
    ensures Contents(s) == bytes + old(Contents(s))[|bytes|..]
    ensures forall p :: 0 <= p < s.data.Length && !(s.off <= p < s.off + Size(s)) ==> s.data[p] == old(s.data[p])
  {
    ghost var before := s.data[..];
    PutBytes(s.data, s.off, bytes);
    PutView(before, s.data[..], s.off, s.viewSize, bytes);
    assert s.data[..][s.off..s.off + s.viewSize] == Contents(s);
  }

  // ---------------------------------------------------------------- append

  /** The whole buffer behind a span, and where its spare room begins. */
  function Buffer(s: Span): seq<Byte>
    reads Frame(s)
  {
    if s.Span? then s.data[..] else []
  }

  function Start(s: Span): nat {
    if s.Span? then s.off + s.viewSize else 0
  }

  /** An argument as a slice: a stretch of the span's own buffer, or bytes elsewhere. */
  function SliceOf(o: Operand, s: Span): (r: Source)
    requires ValidArg(o)
    reads OperandFrame(o)
    ensures Len(r) == OperandSize(o)
  {
    if o.SpanArg? && o.span.Span? && s.Span? && o.span.data == s.data then Inner(o.span.off, o.span.viewSize)
    else Outer(OperandBytes(o))
  }

  function Read(buf: seq<Byte>, s: Source): (r: seq<Byte>)
    requires SourceFits(s, |buf|)
    ensures |r| == Len(s)
  {
    match s
    case Inner(off, len) => buf[off..off + len]
    case Outer(bytes) => bytes
  }

  lemma SliceReads(o: Operand, s: Span)
    requires ValidArg(o) && Valid(s)
    ensures SourceFits(SliceOf(o, s), |Buffer(s)|) && Read(Buffer(s), SliceOf(o, s)) == OperandBytes(o)
  {}

  /** The bytes of all slices, one after another. */
  ghost function Joined(buf: seq<Byte>, srcs: seq<Source>): (r: seq<Byte>)
    requires forall i :: 0 <= i < |srcs| ==> SourceFits(srcs[i], |buf|)
    ensures |r| == Total(srcs)
    decreases |srcs|
  {
    if srcs == [] then [] else Joined(buf, Front(srcs)) + Read(buf, Last(srcs))
  }

  /** The bytes wanted in the appended room are those of all slices, joined. */
  lemma {:induction false} WantedIsJoined(buf: seq<Byte>, start: nat, srcs: seq<Source>, t: nat)
    requires Fits(|buf|, start, srcs) && t < Total(srcs)
    ensures start + t < |buf| && ByteWanted(buf, start, srcs, start + t) == Joined(buf, srcs)[t]
    decreases |srcs|
  {
    LastJoined(buf, srcs, t);
    if t < Total(Front(srcs)) {
      WantedIsJoined(buf, start, Front(srcs), t);
    }
  }

  lemma LastJoined(buf: seq<Byte>, srcs: seq<Source>, t: nat)
    requires (forall i :: 0 <= i < |srcs| ==> SourceFits(srcs[i], |buf|)) && t < Total(srcs)
    ensures var k := t - Total(Front(srcs));
            && SourceFits(Last(srcs), |buf|)
            && Joined(buf, srcs)[t] == if k < 0 then Joined(buf, Front(srcs))[t] else ByteOf(buf, Last(srcs), k)
  {
    assert SourceFits(Last(srcs), |buf|);
    ReadByte(buf, Last(srcs));
  }

  lemma ReadByte(buf: seq<Byte>, s: Source)
    requires SourceFits(s, |buf|)
    ensures forall k: nat :: k < Len(s) ==> Read(buf, s)[k] == ByteOf(buf, s, k)
  {}

  /** `now'` is `now` with one slice copied to `at`: as it was, unless the two overlap. */
  ghost predicate OneCopied(now: seq<Byte>, now': seq<Byte>, at: nat, src: Source) {
    && |now'| == |now| && SourceFits(src, |now|)
    && forall p: nat :: p < |now| ==>
         if p < at || at + Len(src) <= p then now'[p] == now[p] else Smears(src, at) || now'[p] == ByteOf(now, src, p - at)
  }

  ghost predicate CopiedWith(before: seq<Byte>, now: seq<Byte>, start: nat, srcs: seq<Source>, junk: Junk) {
    && |now| == |before| && Fits(|before|, start, srcs)
    && forall p: nat {:trigger ByteAfter(before, start, srcs, junk, p)} ::
         p < |now| ==> now[p] == ByteAfter(before, start, srcs, junk, p)
  }

  /** `now` is something that the loop of append may make of `before` with the slices `srcs`. */
  ghost predicate AllCopied(before: seq<Byte>, now: seq<Byte>, start: nat, srcs: seq<Source>) {
    exists junk: Junk :: CopiedWith(before, now, start, srcs, junk)
  }

  lemma NoneCopied(before: seq<Byte>, start: nat)
    requires start <= |before|
    ensures AllCopied(before, before, start, [])
  {
    assert CopiedWith(before, before, start, [], (_, _) => 0);
  }

  /** The junk of later sources does not matter. */
  lemma {:induction false} SameJunk(before: seq<Byte>, start: nat, srcs: seq<Source>, a: Junk, b: Junk, p: nat)
    requires Fits(|before|, start, srcs) && p < |before|
    requires forall i: nat, k: nat :: i < |srcs| ==> a(i, k) == b(i, k)
    ensures ByteAfter(before, start, srcs, a, p) == ByteAfter(before, start, srcs, b, p)
    decreases |srcs|
  {
    if srcs != [] {
      var at, s := start + Total(Front(srcs)), Last(srcs);
      SameJunk(before, start, Front(srcs), a, b, if p < at || at + Len(s) <= p || s.Outer? then p else s.off + (p - at));
    }
  }

  lemma OneMore(before: seq<Byte>, now: seq<Byte>, now': seq<Byte>, start: nat, srcs: seq<Source>, i: nat, at: nat)
    requires i < |srcs| && Fits(|before|, start, srcs) && AllCopied(before, now, start, srcs[..i])
    requires at == start + Total(srcs[..i]) && OneCopied(now, now', at, srcs[i])
    ensures AllCopied(before, now', start, srcs[..i + 1]) && at + Len(srcs[i]) == start + Total(srcs[..i + 1])
  {
    TotalPrefix(srcs, i);
    assert Fits(|before|, start, srcs[..i + 1]);
    OneMoreAtEnd(before, now, now', start, srcs[..i + 1], srcs[..i], srcs[i], at);
  }

  lemma OneMoreAtEnd(before: seq<Byte>, now: seq<Byte>, now': seq<Byte>, start: nat, srcs: seq<Source>,
                     front: seq<Source>, s: Source, at: nat)
    requires srcs != [] && Front(srcs) == front && Last(srcs) == s
    requires Fits(|before|, start, srcs) && AllCopied(before, now, start, front)
    requires at == start + Total(front) && OneCopied(now, now', at, s)
    ensures AllCopied(before, now', start, srcs)
  {
    var junk: Junk :| CopiedWith(before, now, start, front, junk);
    var junk' := Extended(junk, |front|, at, now');
    forall p: nat | p < |now'|
      ensures now'[p] == ByteAfter(before, start, srcs, junk', p)
    {
      OneMoreByte(before, now, now', start, srcs, at, junk, p);
    }
    assert CopiedWith(before, now', start, srcs, junk');
  }

  /** The bytes that turned out at `at`, as the junk of source `i`. */
  function Extended(junk: Junk, i: nat, at: nat, now: seq<Byte>): Junk {
    (j: nat, k: nat) => if j == i && at + k < |now| then now[at + k] else junk(j, k)
  }

  lemma OneMoreByte(before: seq<Byte>, now: seq<Byte>, now': seq<Byte>, start: nat, srcs: seq<Source>, at: nat,
                    junk: Junk, p: nat)
    requires srcs != [] && Fits(|before|, start, srcs) && CopiedWith(before, now, start, Front(srcs), junk)
    requires at == start + Total(Front(srcs)) && OneCopied(now, now', at, Last(srcs)) && p < |now'|
    ensures now'[p] == ByteAfter(before, start, srcs, Extended(junk, |Front(srcs)|, at, now'), p)
  {
    var s, junk' := Last(srcs), Extended(junk, |Front(srcs)|, at, now');
    var from := if p < at || at + Len(s) <= p || s.Outer? then p else s.off + (p - at);
    assert now[from] == ByteAfter(before, start, Front(srcs), junk, from);
    SameJunk(before, start, Front(srcs), junk, junk', from);
  }

  /** What the loop leaves in the room that it fills, when no slice is harmed. */
  lemma FilledWith(before: seq<Byte>, now: seq<Byte>, start: nat, srcs: seq<Source>, t: nat)
    requires AllCopied(before, now, start, srcs) && Harmless(start, srcs) && t < Total(srcs)
    ensures start + t < |now| && now[start + t] == Joined(before, srcs)[t]
  {
    var junk: Junk :| CopiedWith(before, now, start, srcs, junk);
    assert now[start + t] == ByteAfter(before, start, srcs, junk, start + t);
    HarmlessAgrees(before, start, srcs, junk, start + t);
    WantedIsJoined(before, start, srcs, t);
  }

  /** Nothing else is touched. */
  lemma RestKept(before: seq<Byte>, now: seq<Byte>, start: nat, srcs: seq<Source>, p: nat)
    requires AllCopied(before, now, start, srcs) && p < |now| && (p < start || start + Total(srcs) <= p)
    ensures |now| == |before| && now[p] == before[p]
  {
    var junk: Junk :| CopiedWith(before, now, start, srcs, junk);
    assert now[p] == ByteAfter(before, start, srcs, junk, p);
    OnlyTheTailChanges(before, start, srcs, junk, p);
  }

  /** The grown view shows what it showed before, then the slices. */
  lemma GrownView(before: seq<Byte>, now: seq<Byte>, off: nat, size: nat, total: nat, srcs: seq<Source>)
    requires AllCopied(before, now, off + size, srcs) && Harmless(off + size, srcs) && total == size + Total(srcs)
    ensures off + total <= |now| == |before| && now[off..off + total] == before[off..off + size] + Joined(before, srcs)
  {
    var head, tail := before[off..off + size], Joined(before, srcs);
    forall k | 0 <= k < |head|
      ensures now[off + k] == head[k]
    {
      RestKept(before, now, off + size, srcs, off + k);
    }
    forall k | 0 <= k < |tail|
      ensures now[off + |head| + k] == tail[k]
    {
      FilledWith(before, now, off + size, srcs, k);
    }
    TwoParts(now, off, head, tail);
  }

  lemma TwoParts(now: seq<Byte>, off: nat, a: seq<Byte>, b: seq<Byte>)
    requires off + |a| + |b| <= |now|
    requires forall k {:trigger a[k]} :: 0 <= k < |a| ==> now[off + k] == a[k]
    requires forall k {:trigger b[k]} :: 0 <= k < |b| ==> now[off + |a| + k] == b[k]
    ensures now[off..off + |a| + |b|] == a + b
  {
    forall p | 0 <= p < |a| + |b|
      ensures now[off + p] == (a + b)[p]
    {
      if p >= |a| {
        assert now[off + |a| + (p - |a|)] == b[p - |a|];
      }
    }
  }

  method AnyBytes(n: nat) returns (bytes: seq<Byte>)
    ensures |bytes| == n
  {
    bytes := [];
    while |bytes| < n
      invariant |bytes| <= n
    {
      var b: Byte := *;
      bytes := bytes + [b];
    }
  }

  /** memcpy of one slice: nobody knows what comes out when it overlaps its destination. */
  method CopySlice(data: array<Byte>, at: nat, src: Source)
    requires SourceFits(src, data.Length) && at + Len(src) <= data.Length
    modifies data
    ensures OneCopied(old(data[..]), data[..], at, src)
  {
    var bytes: seq<Byte>;
    if Smears(src, at) {
      bytes := AnyBytes(Len(src));
    } else {
      bytes := Read(data[..], src);
    }
    PutBytes(data, at, bytes);
  }

  /** The loop of append. */
  method CopySlices(data: array<Byte>, start: nat, srcs: seq<Source>)
    requires Fits(data.Length, start, srcs)
    modifies data
    ensures AllCopied(old(data[..]), data[..], start, srcs)
  {
    var i, idx := 0, start;
    assert srcs[..0] == [];
    NoneCopied(data[..], start);
    while i < |srcs|
      invariant i <= |srcs| && idx == start + Total(srcs[..i])
      invariant AllCopied(old(data[..]), data[..], start, srcs[..i])
    {
      TotalPrefix(srcs, i);
      assert SourceFits(srcs[i], data.Length);
      ghost var now := data[..];
      CopySlice(data, idx, srcs[i]);
      OneMore(old(data[..]), now, data[..], start, srcs, i, idx);
      idx := idx + Len(srcs[i]);
      i := i + 1;
    }
    assert srcs[..i] == srcs;
  }

  /** Slices of one buffer, seen from another one. */
  function FromOutside(buf: seq<Byte>, srcs: seq<Source>): (r: seq<Source>)
    requires forall i :: 0 <= i < |srcs| ==> SourceFits(srcs[i], |buf|)
    ensures |r| == |srcs| && forall i :: 0 <= i < |r| ==> r[i].Outer?
    decreases |srcs|
  {
    if srcs == [] then [] else FromOutside(buf, Front(srcs)) + [Outer(Read(buf, Last(srcs)))]
  }

  lemma {:induction false} SameFromOutside(buf: seq<Byte>, other: seq<Byte>, srcs: seq<Source>)
    requires forall i :: 0 <= i < |srcs| ==> SourceFits(srcs[i], |buf|)
    ensures Total(FromOutside(buf, srcs)) == Total(srcs)
    ensures Joined(other, FromOutside(buf, srcs)) == Joined(buf, srcs)
    decreases |srcs|
  {
    if srcs != [] {
      SameFromOutside(buf, other, Front(srcs));
      assert Front(FromOutside(buf, srcs)) == FromOutside(buf, Front(srcs));
    }
  }

  ghost predicate FitsIn(s: Span, srcs: seq<Source>) {
    forall i :: 0 <= i < |srcs| ==> SourceFits(srcs[i], if s.Span? then s.data.Length else 0)
  }

  /** There is room: the spare bytes after the span are filled in place. */
  method AppendInPlace(s: Span, srcs: seq<Source>) returns (r: Span)
    requires Valid(s) && s.Span? && FitsIn(s, srcs) && Size(s) + Total(srcs) <= Capacity(s)
    modifies s.data
    ensures Valid(r) && r == s.(viewSize := Size(s) + Total(srcs))
    ensures AllCopied(old(Buffer(s)), Buffer(s), Start(s), srcs)
  {
    CopySlices(s.data, s.off + s.viewSize, srcs);
    r := s.(viewSize := s.viewSize + Total(srcs));
  }

  /** There is not: a new buffer takes the bytes of the span, then the slices. */
  method AppendCopying(head: seq<Byte>, buf: seq<Byte>, srcs: seq<Source>) returns (r: Span)
    requires forall i :: 0 <= i < |srcs| ==> SourceFits(srcs[i], |buf|)
    requires 0 < |head| + Total(srcs) <= INTEGER_MAX
    ensures Valid(r) && fresh(Frame(r)) && Size(r) == Capacity(r) == |head| + Total(srcs)
    ensures Contents(r) == head + Joined(buf, srcs)
  {
    var n, outer := |head| + Total(srcs), FromOutside(buf, srcs);
    var data := new Byte[n];
    PutBytes(data, 0, head);
    ghost var before := data[..];
    SameFromOutside(buf, before, srcs);
    CopySlices(data, |head|, outer);
    GrownView(before, data[..], 0, |head|, n, outer);
    r := Span(data, 0, n, n);
    assert before[0..0 + |head|] == head;
  }

  /** The slices that append sees: each argument, in turn. */
  ghost predicate SlicesOf(args: seq<Operand>, s: Span, srcs: seq<Source>)
    requires forall i :: 0 <= i < |args| ==> ValidArg(args[i])
    reads set i, o | 0 <= i < |args| && o in OperandFrame(args[i]) :: o
  {
    |srcs| == |args| && forall i {:trigger srcs[i]} :: 0 <= i < |args| ==> srcs[i] == SliceOf(args[i], s)
  }

  /** Looks at each argument in turn. */
  method Gather(s: Span, args: seq<Operand>) returns (srcs: seq<Source>)
    requires Valid(s) && forall i :: 0 <= i < |args| ==> ValidArg(args[i])
    ensures SlicesOf(args, s, srcs) && FitsIn(s, srcs)
  {
    srcs := [];
    var i := 0;
    while i < |args|
      invariant i <= |args| && |srcs| == i && FitsIn(s, srcs)
      invariant forall k {:trigger srcs[k]} :: 0 <= k < i ==> srcs[k] == SliceOf(args[k], s)
    {
      SliceReads(args[i], s);
      srcs := srcs + [SliceOf(args[i], s)];
      i := i + 1;
    }
  }

  /** Adds up the sizes; no total when it would exceed a lua_Integer. */
  method AddUp(srcs: seq<Source>, first: nat) returns (total: Option<nat>)
    requires first <= INTEGER_MAX
    ensures total == if first + Total(srcs) <= INTEGER_MAX then Some(first + Total(srcs)) else None
  {
    var sum, i := first, 0;
    assert srcs[..0] == [];
    while i < |srcs|
      invariant i <= |srcs| && sum == first + Total(srcs[..i]) <= INTEGER_MAX
    {
      TotalPrefix(srcs, i);
      sum := sum + Len(srcs[i]);
      if sum > INTEGER_MAX {
        return None;
      }
      i := i + 1;
    }
    assert srcs[..i] == srcs;
    total := Some(sum);
  }

  /** Appends at least one byte in all, in place if there is room. */
  method Grow(s: Span, srcs: seq<Source>) returns (r: Span)
    requires Valid(s) && FitsIn(s, srcs) && 0 < Size(s) + Total(srcs) <= INTEGER_MAX
    modifies Frame(s)
    ensures Valid(r) && Size(r) == Size(s) + Total(srcs)
    ensures if Size(r) <= Capacity(s)
            then s.Span? && r == s.(viewSize := Size(r)) && AllCopied(old(Buffer(s)), Buffer(s), Start(s), srcs)
            else fresh(Frame(r)) && Buffer(s) == old(Buffer(s))
    ensures (Size(r) <= Capacity(s) ==> Harmless(Start(s), srcs)) ==>
              Contents(r) == old(Contents(s)) + Joined(old(Buffer(s)), srcs)
  {
    if Capacity(s) >= Size(s) + Total(srcs) {
      r := GrowInPlace(s, srcs);
    } else {
      var head, buf := Contents(s), Buffer(s);
      r := AppendCopying(head, buf, srcs);
    }
  }

  method GrowInPlace(s: Span, srcs: seq<Source>) returns (r: Span)
    requires Valid(s) && s.Span? && FitsIn(s, srcs) && Size(s) + Total(srcs) <= Capacity(s)
    modifies s.data
    ensures Valid(r) && r == s.(viewSize := Size(s) + Total(srcs))
    ensures AllCopied(old(Buffer(s)), Buffer(s), Start(s), srcs)
    ensures Harmless(Start(s), srcs) ==> Contents(r) == old(Contents(s)) + Joined(old(Buffer(s)), srcs)
  {
    ghost var before, head := Buffer(s), Contents(s);
    assert head == before[s.off..s.off + s.viewSize];
    r := AppendInPlace(s, srcs);
    assert Contents(r) == Buffer(s)[s.off..s.off + r.viewSize];
    if Harmless(Start(s), srcs) {
      GrownView(before, Buffer(s), s.off, s.viewSize, r.viewSize, srcs);
    }
  }

  /**
    `bs:append(...)`. Whether it reallocates or not, the contents are those of a copying append, unless a
    slice of the span's own buffer was overwritten before it was read.
   */
  method MemberAppend(s: Span, tail: seq<Operand>) returns (r: Result<Span, Errc>, srcs: seq<Source>)
    requires Valid(s) && forall i :: 0 <= i < |tail| ==> ValidArg(tail[i])
    modifies Frame(s)
    ensures old(SlicesOf(tail, s, srcs)) && FitsIn(s, srcs)
    ensures if Size(s) + Total(srcs) > 0x7FFF_FFFF_FFFF_FFFF then r == Err(Overflow)
            else r.Ok? && Valid(r.value) && Size(r.value) == Size(s) + Total(srcs)
    ensures r.Err? || Size(r.value) == 0 || Size(r.value) > Capacity(s) ==> Buffer(s) == old(Buffer(s))
    ensures r.Ok? && 0 < Size(r.value) <= Capacity(s) ==>
              && s.Span? && r.value == s.(viewSize := Size(r.value))
              && AllCopied(old(Buffer(s)), Buffer(s), Start(s), srcs)
    ensures r.Ok? && (Size(r.value) <= Capacity(s) ==> Harmless(Start(s), srcs)) ==>
              Contents(r.value) == old(Contents(s)) + Joined(old(Buffer(s)), srcs)
  {
    srcs := Gather(s, tail);
    forall i | 0 <= i < |tail|
      ensures srcs[i] == old(SliceOf(tail[i], s))
    {
      assert SliceOf(tail[i], s) == old(SliceOf(tail[i], s));
    }
    if |tail| == 0 {
      NoneCopied(Buffer(s), Start(s));
      return Ok(s), srcs;
    }
    var total := AddUp(srcs, Size(s));
    if total.None? {
      return Err(Overflow), srcs;
    }
    if total.value == 0 {
      return Ok(NullSpan), srcs;
    }
    var grown := Grow(s, srcs);
    r := Ok(grown);
  }

  /** `append(...)`: always into a new buffer. */
  method NonMemberAppend(args: seq<Operand>) returns (r: Result<Span, Errc>, srcs: seq<Source>)
    requires forall i :: 0 <= i < |args| ==> ValidArg(args[i])
    ensures old(SlicesOf(args, NullSpan, srcs)) && forall i :: 0 <= i < |srcs| ==> srcs[i].Outer?
    ensures if Total(srcs) > 0x7FFF_FFFF_FFFF_FFFF then r == Err(Overflow)
            else r.Ok? && Valid(r.value) && fresh(Frame(r.value)) && Contents(r.value) == Joined([], srcs)
  {
    srcs := Gather(NullSpan, args);
    forall i | 0 <= i < |args|
      ensures srcs[i] == old(SliceOf(args[i], NullSpan)) && srcs[i].Outer?
    {
      assert SliceOf(args[i], NullSpan) == old(SliceOf(args[i], NullSpan));
    }
    if |args| == 0 {
      return Ok(NullSpan), srcs;
    }
    var total := AddUp(srcs, 0);
    if total.None? {
      return Err(Overflow), srcs;
    }
    if total.value == 0 {
      return Ok(NullSpan), srcs;
    }
    var made := AppendCopying([], [], srcs);
    assert [] + Joined([], srcs) == Joined([], srcs);
    r := Ok(made);
  }

  /** The slices that the non-member form sees for the span and the same arguments. */
  ghost predicate SeenFromOutside(buf: seq<Byte>, head: seq<Byte>, srcs: seq<Source>, outer: seq<Source>) {
    && |outer| == |srcs| + 1 && outer[0] == Outer(head)
    && forall i {:trigger srcs[i]} :: 0 <= i < |srcs| ==>
         SourceFits(srcs[i], |buf|) && outer[i + 1] == Outer(Read(buf, srcs[i]))
  }

  /** What the non-member form joins is what the member form would show without harm. */
  lemma {:induction false} AppendsAgree(buf: seq<Byte>, head: seq<Byte>, srcs: seq<Source>, outer: seq<Source>)
    requires SeenFromOutside(buf, head, srcs, outer)
    ensures forall i :: 0 <= i < |outer| ==> SourceFits(outer[i], 0)
    ensures Joined([], outer) == head + Joined(buf, srcs)
    decreases |srcs|
  {
    assert forall i :: 0 <= i < |outer| ==> i == 0 || (outer[i] == outer[(i - 1) + 1] && srcs[i - 1] == srcs[i - 1]);
    if srcs == [] {
      assert Front(outer) == [];
      assert Joined([], outer) == Joined([], Front(outer)) + head;
    } else {
      assert SeenFromOutside(buf, head, Front(srcs), Front(outer));
      AppendsAgree(buf, head, Front(srcs), Front(outer));
      JoinedAppend(head, Joined(buf, Front(srcs)), Read(buf, Last(srcs)));
    }
  }

  /** The two forms look at the same arguments. */
  lemma SameArguments(s: Span, tail: seq<Operand>, srcs: seq<Source>, outer: seq<Source>)
    requires Valid(s) && forall i :: 0 <= i < |tail| ==> ValidArg(tail[i])
    requires SlicesOf(tail, s, srcs) && SlicesOf([SpanArg(s)] + tail, NullSpan, outer)
    ensures SeenFromOutside(Buffer(s), Contents(s), srcs, outer)
  {
    forall i | 0 <= i < |srcs|
      ensures SourceFits(srcs[i], |Buffer(s)|) && outer[i + 1] == Outer(Read(Buffer(s), srcs[i]))
    {
      assert ([SpanArg(s)] + tail)[i + 1] == tail[i];
      SliceReads(tail[i], s);
    }
  }

  lemma AlwaysSeen(s: Span, tail: seq<Operand>, srcs: seq<Source>)
    requires Valid(s) && forall i :: 0 <= i < |tail| ==> ValidArg(tail[i])
    requires SlicesOf(tail, s, srcs)
    ensures forall outer :: SlicesOf([SpanArg(s)] + tail, NullSpan, outer) ==>
              SeenFromOutside(Buffer(s), Contents(s), srcs, outer)
  {
    forall outer | SlicesOf([SpanArg(s)] + tail, NullSpan, outer)
      ensures SeenFromOutside(Buffer(s), Contents(s), srcs, outer)
    {
      SameArguments(s, tail, srcs, outer);
    }
  }

  lemma {:induction false} SameTotal(buf: seq<Byte>, head: seq<Byte>, srcs: seq<Source>, outer: seq<Source>)
    requires SeenFromOutside(buf, head, srcs, outer)
    ensures Total(outer) == |head| + Total(srcs)
    decreases |srcs|
  {
    AppendsAgree(buf, head, srcs, outer);
    assert |Joined([], outer)| == |head + Joined(buf, srcs)|;
  }

  /**
    The member form refines the other one: asked for the same bytes they fail together, and otherwise show the
    same contents, unless room was filled in place and a slice was harmed by it.
   */
  method AppendBothWays(s: Span, tail: seq<Operand>, ghost srcs: seq<Source>)
    returns (copy: Result<Span, Errc>, grown: Result<Span, Errc>)
    requires Valid(s) && (forall i :: 0 <= i < |tail| ==> ValidArg(tail[i])) && SlicesOf(tail, s, srcs)
    modifies Frame(s)
    ensures copy.Ok? == grown.Ok? && (copy.Err? ==> copy == grown)
    ensures copy.Ok? ==> Valid(copy.value) && Valid(grown.value) && Size(copy.value) == Size(grown.value)
    ensures copy.Ok? && (Size(grown.value) <= Capacity(s) ==> Harmless(Start(s), srcs)) ==>
              Contents(grown.value) == Contents(copy.value)
  {
    ghost var outer;
    copy, outer := CopyFirst(s, tail, srcs);
    grown := GrowAlike(s, tail, srcs, outer, copy);
  }

  /** The other form, seen from the member form. */
  method CopyFirst(s: Span, tail: seq<Operand>, ghost srcs: seq<Source>)
    returns (copy: Result<Span, Errc>, ghost outer: seq<Source>)
    requires Valid(s) && (forall i :: 0 <= i < |tail| ==> ValidArg(tail[i])) && SlicesOf(tail, s, srcs)
    ensures SlicesOf(tail, s, srcs) && SeenFromOutside(Buffer(s), Contents(s), srcs, outer) && SourcesOutside(outer)
    ensures if Total(outer) > INTEGER_MAX then copy == Err(Overflow)
            else copy.Ok? && Valid(copy.value) && fresh(Frame(copy.value)) && Contents(copy.value) == Joined([], outer)
  {
    AlwaysSeen(s, tail, srcs);
    copy, outer := NonMemberAppend([SpanArg(s)] + tail);
  }

  /** The member form, when the other one has already been asked. */
  method GrowAlike(s: Span, tail: seq<Operand>, ghost srcs: seq<Source>, ghost outer: seq<Source>,
                   ghost copy: Result<Span, Errc>)
    returns (grown: Result<Span, Errc>)
    requires Valid(s) && (forall i :: 0 <= i < |tail| ==> ValidArg(tail[i]))
    requires SlicesOf(tail, s, srcs) && SeenFromOutside(Buffer(s), Contents(s), srcs, outer)
    requires SourcesOutside(outer)
    requires if Total(outer) > INTEGER_MAX then copy == Err(Overflow)
             else copy.Ok? && Valid(copy.value) && Frame(copy.value) !! Frame(s) && Contents(copy.value) == Joined([], outer)
    modifies Frame(s)
    ensures copy.Ok? == grown.Ok? && (copy.Err? ==> copy == grown)
    ensures copy.Ok? ==> Valid(grown.value) && Size(copy.value) == Size(grown.value)
    ensures copy.Ok? && (Size(grown.value) <= Capacity(s) ==> Harmless(Start(s), srcs)) ==>
              Contents(grown.value) == Contents(copy.value)
  {
    AppendsAgree(Buffer(s), Contents(s), srcs, outer);
    SameTotal(Buffer(s), Contents(s), srcs, outer);
    var inner;
    grown, inner := MemberAppend(s, tail);
    assert inner == srcs;
  }

  ghost predicate SourcesOutside(srcs: seq<Source>) {
    forall i :: 0 <= i < |srcs| ==> srcs[i].Outer?
  }

  lemma JoinedAppend(a: seq<Byte>, b: seq<Byte>, c: seq<Byte>)
    ensures (a + b) + c == a + (b + c)
  {}

  // ---------------------------------------------------------------- trimming

  ghost predicate AllIn(bytes: seq<Byte>, lws: seq<Byte>) {
    forall i :: 0 <= i < |bytes| ==> bytes[i] in lws
  }

  lemma InnerView(s: Span, r: Span)
    requires Valid(s) && Valid(r) && s.Span? && r.Span? && r.data == s.data
    requires s.off <= r.off && r.off + r.viewSize <= s.off + s.viewSize
    ensures Contents(r) == Contents(s)[r.off - s.off..r.off - s.off + r.viewSize]
  {}

  method FindFirstNotOf(self: seq<Byte>, lws: seq<Byte>) returns (start: nat)
    ensures start <= |self| && forall i :: 0 <= i < start ==> self[i] in lws
    ensures start < |self| ==> self[start] !in lws
  {
    start := 0;
    while start < |self| && self[start] in lws
      invariant start <= |self| && forall i :: 0 <= i < start ==> self[i] in lws
    {
      start := start + 1;
    }
  }

  method FindLastNotOf(self: seq<Byte>, lws: seq<Byte>) returns (end: nat)
    requires !AllIn(self, lws)
    ensures end < |self| && self[end] !in lws && forall i :: end < i < |self| ==> self[i] in lws
  {
    end := |self| - 1;
    while self[end] in lws
      invariant end < |self| && forall i :: end < i < |self| ==> self[i] in lws
      decreases end
    {
      assert exists i :: 0 <= i < end && self[i] !in lws;
      end := end - 1;
    }
  }

  /** The view of the same buffer without the bytes of `lws` at either end. */
  ghost predicate TrimmedOf(s: Span, lws: seq<Byte>, r: Span)
    requires Valid(s) && Valid(r)
    reads Frame(s), Frame(r)
  {
    if AllIn(Contents(s), lws) then r == NullSpan
    else
      && s.Span? && r.Span? && r.data == s.data && 0 < Size(r) && s.off <= r.off && r.off + Size(r) <= s.off + Size(s)
      && Contents(r)[0] !in lws && Contents(r)[Size(r) - 1] !in lws
      && AllIn(Contents(s)[..r.off - s.off], lws)
      && Contents(r) == Contents(s)[r.off - s.off..r.off - s.off + Size(r)]
      && AllIn(Contents(s)[r.off - s.off + Size(r)..], lws)
  }

  lemma TrimmedView(s: Span, lws: seq<Byte>, start: nat, end: nat, r: Span)
    requires Valid(s) && s.Span? && start <= end < Size(s)
    requires AllIn(Contents(s)[..start], lws) && AllIn(Contents(s)[end + 1..], lws)
    requires Contents(s)[start] !in lws && Contents(s)[end] !in lws
    requires r == Span(s.data, s.off + start, end - start + 1, s.viewCapacity - start)
    ensures Valid(r) && TrimmedOf(s, lws, r)
  {
    InnerView(s, r);
  }

  /** Unless told otherwise, space, form feed, newline, carriage return and both tabs are taken off. */
  method Trimmed(s: Span, given: Option<seq<Byte>>) returns (r: Span)
    requires Valid(s)
    ensures Valid(r) && TrimmedOf(s, if given.Some? then given.value else [0x20, 0x0C, 0x0A, 0x0D, 0x09, 0x0B], r)
  {
    if given.Some? {
      r := TrimmedBy(s, given.value);
    } else {
      r := TrimmedBy(s, [0x20, 0x0C, 0x0A, 0x0D, 0x09, 0x0B]);
    }
  }

  method TrimmedBy(s: Span, lws: seq<Byte>) returns (r: Span)
    requires Valid(s)
    ensures Valid(r) && TrimmedOf(s, lws, r)
  {
    var self := Contents(s);
    var start := FindFirstNotOf(self, lws);
    if start == |self| {
      return NullSpan;
    }
    var end := FindLastNotOf(self, lws);
    r := Span(s.data, s.off + start, end - start + 1, s.viewCapacity - start);
    TrimmedView(s, lws, start, end, r);
  }
}
