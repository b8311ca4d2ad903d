/**
  The allocator that the Lua hook of a new process runs on: it only ever advances.
  Blocks are named by their addresses, and sums of addresses wrap like `std::size_t`.
 */
module MonotonicAllocator {
  import opened Wrappers
  import opened SizeT

  type Byte = bv8

  const STEP: nat := 16   // alignof(std::max_align_t)

  /** A buffer at address `base`, the first address not handed out, and the sizes of the blocks that Lua holds. */
  datatype Heap = Heap(base: nat, mem: seq<Byte>, next: nat, live: map<nat, nat>)

  datatype Outcome = Null | Block(ptr: nat) | Exit

  datatype Action = Call(ptr: Option<nat>, nsize: nat) | Store(block: nat, offset: nat, byte: Byte)

  function End(h: Heap): nat {
    h.base + |h.mem|
  }

  /** The size rounded up to whole steps. */
  function Rounded(nsize: nat): (r: nat)
    ensures r % STEP == 0 && nsize <= r < nsize + STEP
  {
    if nsize % STEP > 0 then nsize + (STEP - nsize % STEP) else nsize
  }

  /** The same in a machine word. */
  function Padded(nsize: nat): nat
    requires nsize <= SIZE_MAX
  {
    if nsize % STEP > 0 then Add(nsize, STEP - nsize % STEP) else nsize
  }

  /** The first address after a block of `nsize` bytes at `next`. */
  function After(next: nat, nsize: nat): (r: nat)
    requires next <= SIZE_MAX && nsize <= SIZE_MAX
    ensures next + Rounded(nsize) <= SIZE_MAX ==> r == next + Rounded(nsize)
    ensures next + Rounded(nsize) > SIZE_MAX ==> r == next + Rounded(nsize) - SIZE_MAX - 1 <= next
  {
    Add(next, Padded(nsize))
  }

  /** memcpy inside the buffer, by offsets. Bytes from or to places outside it are left out. */
  function Moved(mem: seq<Byte>, to: nat, from: int, n: nat): (r: seq<Byte>)
    requires to <= |mem|
    ensures |r| == |mem|
  {
    var k := if to + n <= |mem| then n else |mem| - to;
    if from < 0 || from + k > |mem| then mem else mem[..to] + mem[from..from + k] + mem[to + k..]
  }

  function Without(live: map<nat, nat>, ptr: Option<nat>): map<nat, nat> {
    if ptr.None? then live else live - {ptr.value}
  }

  /** What is given back or resized is a block that Lua holds. */
  predicate Holder(h: Heap, ptr: Option<nat>) {
    ptr.Some? ==> ptr.value in h.live
  }

  function OldSize(h: Heap, ptr: Option<nat>): nat
    requires Holder(h, ptr)
  {
    if ptr.None? then 0 else h.live[ptr.value]
  }

  function DoCall(h: Heap, ptr: Option<nat>, nsize: nat): (Heap, Outcome)
    requires h.base <= h.next <= End(h) <= SIZE_MAX && Holder(h, ptr) && nsize <= SIZE_MAX
  {
    var osize := OldSize(h, ptr);
    if nsize == 0 then (h.(live := Without(h.live, ptr)), Null)
    else if nsize < osize then (h.(live := h.live[ptr.value := nsize]), Block(ptr.value))
    else
      var next := After(h.next, nsize);
      if next > End(h) then (h, Exit)
      else
        var mem := if ptr.None? then h.mem else Moved(h.mem, h.next - h.base, ptr.value - h.base, osize);
        (Heap(h.base, mem, next, Without(h.live, ptr)[h.next := nsize]), Block(h.next))
  }

  // ---------------------------------------------------------------- the invariant

  predicate BlockOk(h: Heap, p: nat)
    requires p in h.live
  {
    p % STEP == 0 && 0 < h.live[p] && h.base <= p && p + h.live[p] <= h.next
  }

  predicate Apart(h: Heap, p: nat, q: nat)
    requires p in h.live && q in h.live
  {
    p + h.live[p] <= q || q + h.live[q] <= p
  }

  /** Live blocks are inside what has been handed out, aligned and pairwise disjoint. */
  ghost predicate Inv(h: Heap) {
    && h.base <= h.next <= End(h) <= SIZE_MAX && h.base % STEP == 0 && h.next % STEP == 0
    && (forall p {:trigger BlockOk(h, p)} :: p in h.live ==> BlockOk(h, p))
    && (forall p, q {:trigger Apart(h, p, q)} :: p in h.live && q in h.live && p != q ==> Apart(h, p, q))
  }

  /** The call needs no new room, or the end of the room it needs has an address. */
  predicate HasAddress(h: Heap, ptr: Option<nat>, nsize: nat)
    requires Holder(h, ptr)
  {
    nsize == 0 || nsize < OldSize(h, ptr) || h.next + Rounded(nsize) <= SIZE_MAX
  }

  /** Without wrapping, all blocks of the new heap are in order. */
  lemma BlocksInOrder(h: Heap, ptr: Option<nat>, nsize: nat, p: nat)
    requires Inv(h) && Holder(h, ptr) && nsize <= SIZE_MAX && HasAddress(h, ptr, nsize)
    requires p in DoCall(h, ptr, nsize).0.live
    ensures BlockOk(DoCall(h, ptr, nsize).0, p)
  {
    assert p in h.live ==> BlockOk(h, p);
  }

  lemma BlocksApart(h: Heap, ptr: Option<nat>, nsize: nat, p: nat, q: nat)
    requires Inv(h) && Holder(h, ptr) && nsize <= SIZE_MAX && HasAddress(h, ptr, nsize)
    requires p in DoCall(h, ptr, nsize).0.live && q in DoCall(h, ptr, nsize).0.live && p != q
    ensures Apart(DoCall(h, ptr, nsize).0, p, q)
  {
    assert p in h.live ==> BlockOk(h, p);
    assert q in h.live ==> BlockOk(h, q);
    assert p in h.live && q in h.live ==> Apart(h, p, q);
  }

  /** A sum that wraps passes the test for room: the block handed out reaches beyond what is then in use. */
  lemma WrappingBreaks(h: Heap, ptr: Option<nat>, nsize: nat)
    requires Inv(h) && Holder(h, ptr) && nsize <= SIZE_MAX && !HasAddress(h, ptr, nsize)
    ensures DoCall(h, ptr, nsize).1 == Block(h.next)
    ensures DoCall(h, ptr, nsize).0.next <= h.next
    ensures !Inv(DoCall(h, ptr, nsize).0)
  {
    var h' := DoCall(h, ptr, nsize).0;
    assert h.next in h'.live && h'.live[h.next] == nsize;
    assert !BlockOk(h', h.next);
  }

  /** A call keeps the invariant exactly when the sum of the next address and its size does not wrap around. */
  lemma CallKeepsIff(h: Heap, ptr: Option<nat>, nsize: nat)
    requires Inv(h) && Holder(h, ptr) && nsize <= SIZE_MAX
    ensures Inv(DoCall(h, ptr, nsize).0) <==> HasAddress(h, ptr, nsize)
  {
    if !HasAddress(h, ptr, nsize) {
      WrappingBreaks(h, ptr, nsize);
    } else {
      var h' := DoCall(h, ptr, nsize).0;
      forall p | p in h'.live
        ensures BlockOk(h', p)
      {
        BlocksInOrder(h, ptr, nsize, p);
      }
      forall p, q | p in h'.live && q in h'.live && p != q
        ensures Apart(h', p, q)
      {
        BlocksApart(h, ptr, nsize, p, q);
      }
    }
  }

  /** A size of 2^64 - 32 takes `next` back, and the next small block is one that Lua still holds. */
  lemma WrappingHandsOutTwice(mem: seq<Byte>)
    requires |mem| == 64
    ensures var h1 := Heap(4096, mem, 4128, map[4096 := 32]);
            var (h2, r2) := DoCall(h1, None, SIZE_MAX - 31);
            && Inv(h1) && r2 == Block(4128) && h2.live == map[4096 := 32, 4128 := SIZE_MAX - 31]
            && h2.next == h2.base && DoCall(h2, None, 16).1 == Block(4096)
  {}

  // ---------------------------------------------------------------- contents

  lemma MovedByte(mem: seq<Byte>, to: nat, from: nat, n: nat, p: nat)
    requires from + n <= to <= |mem| && p < |mem|
    ensures Moved(mem, to, from, n)[p] == if to <= p < to + n then mem[from + (p - to)] else mem[p]
  {}

  lemma MovedAt(mem: seq<Byte>, to: nat, from: nat, n: nat)
    requires to + n <= |mem| && from + n <= to
    ensures Moved(mem, to, from, n)[to..to + n] == mem[from..from + n]
    ensures Moved(mem, to, from, n)[..to] == mem[..to]
  {}

  lemma SameBelow(a: seq<Byte>, b: seq<Byte>, limit: nat, p: nat, n: nat)
    requires limit <= |a| && limit <= |b| && a[..limit] == b[..limit] && p + n <= limit
    ensures a[p..p + n] == b[p..p + n]
  {
    assert a[p..p + n] == a[..limit][p..p + n];
    assert b[p..p + n] == b[..limit][p..p + n];
  }

  /** The first `n` bytes from address `p` on. */
  function BytesAt(h: Heap, p: nat, n: nat): seq<Byte>
    requires h.base <= p && p + n <= End(h)
  {
    h.mem[p - h.base..p - h.base + n]
  }

  function BlockBytes(h: Heap, p: nat): seq<Byte>
    requires p in h.live && h.base <= p && p + h.live[p] <= End(h)
  {
    BytesAt(h, p, h.live[p])
  }

  /** How much of the old block a call keeps. */
  function Kept(h: Heap, ptr: Option<nat>, nsize: nat): nat
    requires Holder(h, ptr)
  {
    if nsize < OldSize(h, ptr) then nsize else OldSize(h, ptr)
  }

  /**
    The allocator contract: a call fails only for want of room; what it hands out is aligned and of the size
    asked for, holds what the old block held, and leaves every byte handed out before as it is.
   */
  lemma CallContract(h: Heap, ptr: Option<nat>, nsize: nat)
    requires Inv(h) && Holder(h, ptr) && nsize <= SIZE_MAX && HasAddress(h, ptr, nsize)
    ensures var (h', r) := DoCall(h, ptr, nsize);
            && Inv(h') && End(h') == End(h) && h'.base == h.base
            && h'.mem[..h.next - h.base] == h.mem[..h.next - h.base]
            && (r.Null? <==> nsize == 0)
            && (r.Exit? <==> nsize > 0 && nsize >= OldSize(h, ptr) && h.next + (nsize + 15) / 16 * 16 > End(h))
            && (r.Exit? ==> h' == h)
            && (r.Block? ==>
                  && r.ptr in h'.live && h'.live[r.ptr] == nsize && r.ptr % 16 == 0
                  && h.base <= r.ptr && r.ptr + nsize <= End(h)
                  && (nsize < OldSize(h, ptr) ==> ptr == Some(r.ptr))
                  && (ptr.Some? ==>
                        var kept := Kept(h, ptr, nsize);
                        && h.base <= ptr.value && ptr.value + kept <= End(h)
                        && BytesAt(h', r.ptr, kept) == BytesAt(h, ptr.value, kept)))
            && (!r.Exit? ==> h'.live.Keys == Without(h.live, ptr).Keys + if r.Block? then {r.ptr} else {})
  {
    CallKeepsIff(h, ptr, nsize);
    var (h', r) := DoCall(h, ptr, nsize);
    if ptr.Some? {
      assert BlockOk(h, ptr.value);
    }
    if r.Block? {
      assert BlockOk(h', r.ptr);
      if ptr.Some? {
        ContentsKept(h, ptr, nsize);
      }
    }
  }

  /** A block that moves or shrinks keeps its first bytes, and nothing below is touched. */
  lemma ContentsKept(h: Heap, ptr: Option<nat>, nsize: nat)
    requires Inv(h) && ptr.Some? && Holder(h, ptr) && nsize <= SIZE_MAX && HasAddress(h, ptr, nsize)
    requires DoCall(h, ptr, nsize).1.Block?
    ensures var (h', r), kept := DoCall(h, ptr, nsize), Kept(h, ptr, nsize);
            && h.base <= ptr.value && ptr.value + kept <= End(h) && h'.base <= r.ptr && r.ptr + kept <= End(h')
            && BytesAt(h', r.ptr, kept) == BytesAt(h, ptr.value, kept)
            && |h'.mem| == |h.mem| && h'.mem[..h.next - h.base] == h.mem[..h.next - h.base]
  {
    assert BlockOk(h, ptr.value);
    if nsize >= OldSize(h, ptr) {
      MovedAt(h.mem, h.next - h.base, ptr.value - h.base, OldSize(h, ptr));
    }
  }

  lemma OthersKept(h: Heap, ptr: Option<nat>, nsize: nat, q: nat)
    requires Inv(h) && Holder(h, ptr) && nsize <= SIZE_MAX && HasAddress(h, ptr, nsize)
    requires q in h.live && ptr != Some(q)
    ensures h.base <= q && q + h.live[q] <= End(h)
    ensures var h' := DoCall(h, ptr, nsize).0;
            && q in h'.live && h'.live[q] == h.live[q] && h'.base <= q && q + h'.live[q] <= End(h')
            && BlockBytes(h', q) == BlockBytes(h, q)
  {
    BelowKept(h, ptr, nsize);
    assert BlockOk(h, q);
    OthersListed(h, ptr, nsize, q);
    SameBelow(h.mem, DoCall(h, ptr, nsize).0.mem, h.next - h.base, q - h.base, h.live[q]);
  }

  lemma BelowKept(h: Heap, ptr: Option<nat>, nsize: nat)
    requires Inv(h) && Holder(h, ptr) && nsize <= SIZE_MAX
    ensures var h' := DoCall(h, ptr, nsize).0;
            && h'.base == h.base && |h'.mem| == |h.mem| && h'.mem[..h.next - h.base] == h.mem[..h.next - h.base]
  {}

  lemma OthersListed(h: Heap, ptr: Option<nat>, nsize: nat, q: nat)
    requires Inv(h) && Holder(h, ptr) && nsize <= SIZE_MAX && q in h.live && ptr != Some(q)
    ensures q in DoCall(h, ptr, nsize).0.live && DoCall(h, ptr, nsize).0.live[q] == h.live[q]
  {
    assert BlockOk(h, q);
  }

  // ---------------------------------------------------------------- any sequence of calls

  ghost predicate Enabled(h: Heap, a: Action) {
    match a
    case Call(ptr, nsize) => Holder(h, ptr) && nsize <= SIZE_MAX && HasAddress(h, ptr, nsize)
    case Store(block, offset, _) => block in h.live && offset < h.live[block]
  }

  ghost function Next(h: Heap, a: Action): Heap
    requires Inv(h)
  {
    if !Enabled(h, a) then h
    else match a
      case Call(ptr, nsize) => DoCall(h, ptr, nsize).0
      case Store(block, offset, byte) => assert BlockOk(h, block); h.(mem := h.mem[block - h.base + offset := byte])
  }

  lemma NextKeeps(h: Heap, a: Action)
    requires Inv(h)
    ensures Inv(Next(h, a))
  {
    if Enabled(h, a) {
      match a
      case Call(ptr, nsize) =>
        CallKeepsIff(h, ptr, nsize);
      case Store(block, offset, byte) =>
        var h' := Next(h, a);
        forall p | p in h'.live
          ensures BlockOk(h', p)
        {
          assert BlockOk(h, p);
        }
        forall p, q | p in h'.live && q in h'.live && p != q
          ensures Apart(h', p, q)
        {
          assert Apart(h, p, q);
        }
    }
  }

  ghost function Exec(h: Heap, run: seq<Action>): (r: Heap)
    requires Inv(h)
    ensures Inv(r)
    decreases |run|
  {
    if run == [] then h else NextKeeps(h, run[0]); Exec(Next(h, run[0]), run[1..])
  }

  /** Not passed to the allocator, and not written to by its owner. */
  predicate LeavesAlone(a: Action, q: nat) {
    match a
    case Call(ptr, _) => ptr != Some(q)
    case Store(block, _, _) => block != q
  }

  ghost predicate Holds(h: Heap, q: nat, bytes: seq<Byte>)
    requires Inv(h)
  {
    q in h.live && h.live[q] == |bytes| && (assert BlockOk(h, q); BlockBytes(h, q) == bytes)
  }

  lemma StepKeepsBlock(h: Heap, a: Action, q: nat, bytes: seq<Byte>)
    requires Inv(h) && Holds(h, q, bytes) && LeavesAlone(a, q)
    ensures Inv(Next(h, a)) && Holds(Next(h, a), q, bytes)
  {
    NextKeeps(h, a);
    assert BlockOk(h, q);
    if Enabled(h, a) {
      match a
      case Call(ptr, nsize) =>
        OthersKept(h, ptr, nsize, q);
      case Store(block, offset, byte) =>
        assert BlockOk(h, block) && Apart(h, block, q);
    }
  }

  /** Whatever happens to the other blocks, a block keeps its bytes until it is itself used or given back. */
  lemma {:induction false} BlockLastsOverRun(h: Heap, run: seq<Action>, q: nat, bytes: seq<Byte>)
    requires Inv(h) && Holds(h, q, bytes) && forall i :: 0 <= i < |run| ==> LeavesAlone(run[i], q)
    ensures Holds(Exec(h, run), q, bytes)
    decreases |run|
  {
    if run != [] {
      StepKeepsBlock(h, run[0], q, bytes);
      BlockLastsOverRun(Next(h, run[0]), run[1..], q, bytes);
    }
  }

  // ---------------------------------------------------------------- the allocator itself

  class Allocator {
    const base: nat
    const buffer: array<Byte>
    var next: nat
    ghost var live: map<nat, nat>

    ghost function View(): Heap
      reads this, buffer
    {
      Heap(base, buffer[..], next, live)
    }

    /** malloc gives a buffer that is aligned and does not reach the end of the addresses. */
    constructor (base: nat, buffer: array<Byte>)
      requires base % STEP == 0 && base + buffer.Length <= SIZE_MAX
      ensures Inv(View()) && View() == Heap(base, buffer[..], base, map[])
      ensures this.base == base && this.buffer == buffer
    {
      this.base := base;
      this.buffer := buffer;
      next := base;
      live := map[];
    }

    method CopyWithin(to: nat, from: nat, n: nat)
      requires from + n <= to <= buffer.Length
      modifies buffer
      ensures buffer[..] == Moved(old(buffer[..]), to, from, n)
    {
      var i := 0;
      while i < n && to + i < buffer.Length
        invariant i <= n && to + i <= buffer.Length
        invariant forall p :: 0 <= p < buffer.Length ==>
                    buffer[p] == if to <= p < to + i then old(buffer[from + (p - to)]) else old(buffer[p])
      {
        buffer[to + i] := buffer[from + i];
        i := i + 1;
      }
      forall p: nat | p < buffer.Length
        ensures buffer[..][p] == Moved(old(buffer[..]), to, from, n)[p]
      {
        MovedByte(old(buffer[..]), to, from, n, p);
      }
    }

    /** The function given to lua_newstate; `Exit` stands for the end of the process. */
    method Alloc(ptr: Option<nat>, osize: nat, nsize: nat) returns (r: Outcome)
      requires Inv(View()) && Holder(View(), ptr) && nsize <= SIZE_MAX && osize == OldSize(View(), ptr)
      modifies this, buffer
      ensures (View(), r) == DoCall(old(View()), ptr, nsize)
      ensures Inv(View()) <==> old(HasAddress(View(), ptr, nsize))
    {
      CallKeepsIff(View(), ptr, nsize);
      if nsize == 0 {
        live := Without(live, ptr);
        return Null;
      }
      if nsize < osize {
        live := live[ptr.value := nsize];
        return Block(ptr.value);
      }
      r := NewBlock(ptr, osize, nsize);
    }

    /** memcpy of a block that lies below `to`. */
    method CopyOld(to: nat, from: nat, n: nat)
      requires base <= from && from + n <= to <= base + buffer.Length
      modifies buffer
      ensures buffer[..] == Moved(old(buffer[..]), to - base, from - base, n)
    {
      CopyWithin(to - base, from - base, n);
    }

    /** Takes room behind the last block, if there is any, and moves the old block there. */
    method NewBlock(ptr: Option<nat>, osize: nat, nsize: nat) returns (r: Outcome)
      requires Inv(View()) && Holder(View(), ptr) && nsize <= SIZE_MAX && osize == OldSize(View(), ptr)
      requires nsize > 0 && nsize >= osize
      modifies this, buffer
      ensures (View(), r) == DoCall(old(View()), ptr, nsize)
    {
      assert ptr.Some? ==> BlockOk(View(), ptr.value);
      var end, size, remainder := base + buffer.Length, nsize, nsize % STEP;
      if remainder > 0 {
        size := Add(size, STEP - remainder);
      }
      if Add(next, size) > end {
        return Exit;
      }
      var ret := next;
      next := Add(next, size);
      if ptr.Some? {
        CopyOld(ret, ptr.value, osize);
      }
      live := Without(live, ptr)[ret := nsize];
      r := Block(ret);
    }
  }
}
