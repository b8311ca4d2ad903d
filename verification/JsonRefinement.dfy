/** The loop over tokens builds what recursion over the document would: a table graph that denotes it. */
module JsonRefinement {
  import opened Wrappers
  import opened JsonDecode

  // ---------------------------------------------------------------- a finished value stays what it is

  ghost predicate Kept(h: Heap, h': Heap, lo: nat) {
    |h| <= |h'| && forall r: nat :: lo <= r < |h| ==> h'[r] == h[r]
  }

  /** A value only depends on its own table and younger ones. */
  lemma {:induction false} DenotesKept(h: Heap, h': Heap, lo: nat, x: Lua, v: Json)
    requires Denotes(h, x, v) && (x.TableRef? ==> x.ref >= lo) && Kept(h, h', lo)
    ensures Denotes(h', x, v)
    decreases v
  {
    match v
    case Leaf(_) =>
    case Array(elems) =>
      forall key | key in h[x.ref].fields
        ensures Denotes(h', h[x.ref].fields[key], elems[key.index - 1])
      {
        DenotesKept(h, h', lo, h[x.ref].fields[key], elems[key.index - 1]);
      }
    case Object(members) =>
      forall i | 0 <= i < |members| && IsLast(members, |members|, i)
        ensures Denotes(h', h[x.ref].fields[Name(members[i].name)], members[i].value)
      {
        DenotesKept(h, h', lo, h[x.ref].fields[Name(members[i].name)], members[i].value);
      }
  }

  // ---------------------------------------------------------------- storing one value

  /** The current item is the table of the innermost open container. */
  ghost predicate Nested(d: Decoder) {
    && (d.path != [] ==>
          d.top.TableRef? && d.top.ref < |d.heap| && |d.path| in d.tree && d.tree[|d.path|] == d.top.ref)
    && (forall i :: i in d.tree ==> i <= 1 || i <= |d.path|)
  }

  /** One table got a new field; all else is as before, but for new tables. */
  ghost predicate FieldSet(h: Heap, h': Heap, p: Ref, k: Key, x: Lua) {
    && p < |h| <= |h'|
    && h'[p] == h[p].(fields := h[p].fields[k := x])
    && forall r: nat :: r < |h| && r != p ==> h'[r] == h[r]
  }

  /** From `d` to `d'` the value `x`, with its own new tables, was read and stored where it belongs. */
  ghost predicate Stored(d: Decoder, d': Decoder, x: Lua) {
    && |d.heap| <= |d'.heap| && (x.TableRef? ==> |d.heap| <= x.ref < |d'.heap|)
    && if d.path == [] then d'.path == [] && d'.top == x && Kept(d.heap, d'.heap, 0)
       else
         && d.top.TableRef? && d'.path == Bump(d.path) && d'.top == d.top && d'.tree == d.tree
         && FieldSet(d.heap, d'.heap, d.top.ref, KeyOf(Last(Bump(d.path))), x)
  }

  lemma ElemStored(d: Decoder, d': Decoder, x: Lua, elems: seq<Json>, k: nat)
    requires d.path != [] && d.top.TableRef? && Last(d.path) == Index(k) && Stored(d, d', x)
    requires k < |elems| && HoldsElems(d.heap, d.top.ref, elems, k) && Denotes(d'.heap, x, elems[k])
    ensures HoldsElems(d'.heap, d.top.ref, elems, k + 1)
  {
    var r, h, h' := d.top.ref, d.heap, d'.heap;
    forall key | key in h[r].fields
      ensures Denotes(h', h[r].fields[key], elems[key.index - 1])
    {
      DenotesKept(h, h', r + 1, h[r].fields[key], elems[key.index - 1]);
    }
  }

  lemma MemberStored(d: Decoder, d': Decoder, x: Lua, members: seq<Member>, k: nat)
    requires d.path != [] && d.top.TableRef? && k < |members| && Last(d.path) == Field(members[k].name) && Stored(d, d', x)
    requires HoldsMembers(d.heap, d.top.ref, members, k) && Denotes(d'.heap, x, members[k].value)
    ensures HoldsMembers(d'.heap, d.top.ref, members, k + 1)
  {
    var r, h, h' := d.top.ref, d.heap, d'.heap;
    forall i | 0 <= i < k + 1 && IsLast(members, k + 1, i)
      ensures Name(members[i].name) in h'[r].fields && Younger(h'[r].fields[Name(members[i].name)], r)
      ensures Denotes(h', h'[r].fields[Name(members[i].name)], members[i].value)
    {
      if i < k {
        assert members[k].name != members[i].name;
        assert IsLast(members, k, i);
        DenotesKept(h, h', r + 1, h[r].fields[Name(members[i].name)], members[i].value);
      }
    }
    forall key | key in h'[r].fields
      ensures exists i :: 0 <= i < k + 1 && key == Name(members[i].name)
    {
      if key in h[r].fields {
        var i :| 0 <= i < k && key == Name(members[i].name);
      }
    }
  }

  // ---------------------------------------------------------------- runs of tokens

  lemma {:induction false} RunConcat(d: Decoder, a: seq<Token>, b: seq<Token>)
    ensures Run(d, a + b) == if Run(d, a).Err? then Run(d, a) else Run(Run(d, a).value, b)
    decreases |a|
  {
    if a == [] {
      assert [] + b == b;
    } else {
      assert (a + b)[1..] == a[1..] + b;
      if Step(d, a[0]).Ok? {
        RunConcat(Step(d, a[0]).value, a[1..], b);
      }
    }
  }

  lemma RunOne(d: Decoder, t: Token)
    ensures Run(d, [t]) == Step(d, t)
  {
    if Step(d, t).Ok? {
      assert Run(Step(d, t).value, [t][1..]) == Step(d, t);
    }
  }

  lemma RunAround(d: Decoder, first: Token, middle: seq<Token>, last: Token)
    ensures Run(d, [first] + middle + [last]) ==
            if Step(d, first).Err? then Step(d, first)
            else
              var r := Run(Step(d, first).value, middle);
              if r.Err? then r else Step(r.value, last)
  {
    RunConcat(d, [first] + middle, [last]);
    RunConcat(d, [first], middle);
    RunOne(d, first);
    if Run(d, [first] + middle).Ok? {
      RunOne(Run(d, [first] + middle).value, last);
    }
  }

  // ---------------------------------------------------------------- a whole value

  /** A container has been opened: an empty table, stored in its parent, is the current item. */
  lemma Opened(d: Decoder, isArray: bool)
    requires Nested(d) && !Full(d.path) && |d.path| < ARRAY_KEY_MAX
    ensures OnBegin(d, isArray).Ok? && Nested(OnBegin(d, isArray).value)
    ensures var d1, c := OnBegin(d, isArray).value, |d.heap|;
            && d1.top == TableRef(c) && |d1.heap| == c + 1 && d1.heap[c] == Table(isArray, map[])
            && d1.path == (if d.path == [] then [] else Bump(d.path)) + [if isArray then Index(0) else Field("")]
            && d1.tree == d.tree[|d1.path| := c]
            && if d.path == [] then Kept(d.heap, d1.heap, 0)
               else FieldSet(d.heap, d1.heap, d.top.ref, KeyOf(Last(Bump(d.path))), TableRef(c))
  {}

  /** `d2` is `d1` after more work inside the current container. */
  ghost predicate Inside(d1: Decoder, d2: Decoder) {
    && d1.path != [] && |d2.path| == |d1.path| && d2.path[..|d1.path| - 1] == d1.path[..|d1.path| - 1]
    && d2.top == d1.top && d2.tree == d1.tree && d1.top.TableRef? && |d1.heap| <= |d2.heap|
    && forall r: nat :: r < |d1.heap| && r != d1.top.ref ==> d2.heap[r] == d1.heap[r]
  }

  lemma Closed(d: Decoder, isArray: bool, d2: Decoder)
    requires Nested(d) && !Full(d.path) && |d.path| < ARRAY_KEY_MAX
    requires OnBegin(d, isArray).Ok? && Inside(OnBegin(d, isArray).value, d2)
    ensures OnEnd(d2).Ok? && OnEnd(d2).value.heap == d2.heap && Stored(d, OnEnd(d2).value, TableRef(|d.heap|))
  {
    Opened(d, isArray);
    var d1, c := OnBegin(d, isArray).value, |d.heap|;
    assert d2.path[..|d2.path| - 1] == if d.path == [] then [] else Bump(d.path);
    if d.path != [] {
      assert d1.tree - {|d1.path|} == d.tree;
    }
  }

  /** Begin, what is inside, and end: the container is a value stored where it belongs. */
  lemma ContainerDone(d: Decoder, isArray: bool, middle: seq<Token>)
    requires Nested(d) && !Full(d.path) && |d.path| < ARRAY_KEY_MAX
    requires OnBegin(d, isArray).Ok? && Run(OnBegin(d, isArray).value, middle).Ok?
    requires Inside(OnBegin(d, isArray).value, Run(OnBegin(d, isArray).value, middle).value)
    ensures var r := Run(d, (if isArray then [BeginArray] else [BeginObject]) + middle
                            + (if isArray then [EndArray] else [EndObject]));
            && r.Ok? && Stored(d, r.value, TableRef(|d.heap|))
            && r.value.heap == Run(OnBegin(d, isArray).value, middle).value.heap
  {
    RunAround(d, if isArray then BeginArray else BeginObject, middle, if isArray then EndArray else EndObject);
    Closed(d, isArray, Run(OnBegin(d, isArray).value, middle).value);
  }

  lemma {:induction false} DecodeValue(d: Decoder, v: Json) returns (x: Lua)
    requires Nested(d) && !Full(d.path) && Fits(v, |d.path|)
    ensures Run(d, Tokens(v)).Ok? && Stored(d, Run(d, Tokens(v)).value, x)
    ensures Denotes(Run(d, Tokens(v)).value.heap, x, v)
    decreases v, 1, 0
  {
    match v
    case Leaf(lit) =>
      x := LuaOf(lit);
      RunOne(d, LeafToken(lit));
    case Array(_) => x := DecodeArray(d, v);
    case Object(_) => x := DecodeObject(d, v);
  }

  lemma {:induction false} DecodeArray(d: Decoder, v: Json) returns (x: Lua)
    requires v.Array? && Nested(d) && !Full(d.path) && Fits(v, |d.path|)
    ensures Run(d, Tokens(v)).Ok? && Stored(d, Run(d, Tokens(v)).value, x)
    ensures Denotes(Run(d, Tokens(v)).value.heap, x, v)
    decreases v, 0, |v.elems| + 1
  {
    x := TableRef(|d.heap|);
    Opened(d, true);
    var d1 := OnBegin(d, true).value;
    DecodeElems(d1, v, 0);
    assert v.elems[0..] == v.elems;
    ContainerDone(d, true, ElemTokens(v.elems));
  }

  lemma {:induction false} DecodeObject(d: Decoder, v: Json) returns (x: Lua)
    requires v.Object? && Nested(d) && !Full(d.path) && Fits(v, |d.path|)
    ensures Run(d, Tokens(v)).Ok? && Stored(d, Run(d, Tokens(v)).value, x)
    ensures Denotes(Run(d, Tokens(v)).value.heap, x, v)
    decreases v, 0, |v.members| + 1
  {
    x := TableRef(|d.heap|);
    Opened(d, false);
    var d1 := OnBegin(d, false).value;
    DecodeMembers(d1, v, 0);
    assert v.members[0..] == v.members;
    ContainerDone(d, false, MemberTokens(v.members));
  }

  /** The elements from number `k` on, the earlier ones being in the table. */
  lemma {:induction false} DecodeElems(d: Decoder, v: Json, k: nat)
    requires v.Array? && k <= |v.elems| <= ARRAY_KEY_MAX
    requires Nested(d) && d.path != [] && Last(d.path) == Index(k) && HoldsElems(d.heap, d.top.ref, v.elems, k)
    requires forall i :: 0 <= i < |v.elems| ==> Fits(v.elems[i], |d.path|)
    ensures Run(d, ElemTokens(v.elems[k..])).Ok?
    ensures var d' := Run(d, ElemTokens(v.elems[k..])).value;
            Inside(d, d') && HoldsElems(d'.heap, d.top.ref, v.elems, |v.elems|)
    decreases v, 0, |v.elems| - k
  {
    if k < |v.elems| {
      var x := DecodeValue(d, v.elems[k]);
      var d1 := Run(d, Tokens(v.elems[k])).value;
      ElemStored(d, d1, x, v.elems, k);
      DecodeElems(d1, v, k + 1);
      assert v.elems[k..][1..] == v.elems[k + 1..];
      RunConcat(d, Tokens(v.elems[k]), ElemTokens(v.elems[k + 1..]));
    }
  }

  lemma {:induction false} DecodeMembers(d: Decoder, v: Json, k: nat)
    requires v.Object? && k <= |v.members|
    requires Nested(d) && d.path != [] && Last(d.path).Field? && HoldsMembers(d.heap, d.top.ref, v.members, k)
    requires forall i :: 0 <= i < |v.members| ==> Fits(v.members[i].value, |d.path|)
    ensures Run(d, MemberTokens(v.members[k..])).Ok?
    ensures var d' := Run(d, MemberTokens(v.members[k..])).value;
            Inside(d, d') && HoldsMembers(d'.heap, d.top.ref, v.members, |v.members|)
    decreases v, 0, |v.members| - k
  {
    if k < |v.members| {
      var m := v.members[k];
      var d0 := OnKey(d, m.name).value;
      var x := DecodeValue(d0, m.value);
      var d1 := Run(d0, Tokens(m.value)).value;
      MemberStored(d0, d1, x, v.members, k);
      DecodeMembers(d1, v, k + 1);
      assert v.members[k..][1..] == v.members[k + 1..];
      RunConcat(d, [KeyToken(m.name)] + Tokens(m.value), MemberTokens(v.members[k + 1..]));
      RunConcat(d, [KeyToken(m.name)], Tokens(m.value));
      RunOne(d, KeyToken(m.name));
    }
  }

  // ---------------------------------------------------------------- the documents that are refused

  lemma {:induction false} FaultIff(v: Json, depth: nat, full: bool)
    ensures Fault(v, depth, full).None? <==> Fits(v, depth) && !full
    decreases v, 1, 0
  {
    match v
    case Leaf(_) =>
    case Array(elems) =>
      if depth < INT_MAX && !full {
        ElemsFaultIff(v, depth + 1, 0);
        assert elems[0..] == elems;
      }
    case Object(members) =>
      if depth < INT_MAX && !full {
        MembersFaultIff(v, depth + 1, 0);
        assert members[0..] == members;
      }
  }

  lemma {:induction false} ElemsFaultIff(v: Json, depth: nat, k: nat)
    requires v.Array? && k <= |v.elems| && k <= INT_MAX
    ensures ElemsFault(v.elems[k..], depth, k).None? <==>
              |v.elems| <= INT_MAX && forall i :: k <= i < |v.elems| ==> Fits(v.elems[i], depth)
    decreases v, 0, |v.elems| - k
  {
    if k < |v.elems| {
      FaultIff(v.elems[k], depth, k == INT_MAX);
      assert v.elems[k..][1..] == v.elems[k + 1..];
      if k < INT_MAX {
        ElemsFaultIff(v, depth, k + 1);
      }
    }
  }

  lemma {:induction false} MembersFaultIff(v: Json, depth: nat, k: nat)
    requires v.Object? && k <= |v.members|
    ensures MembersFault(v.members[k..], depth).None? <==> forall i :: k <= i < |v.members| ==> Fits(v.members[i].value, depth)
    decreases v, 0, |v.members| - k
  {
    if k < |v.members| {
      FaultIff(v.members[k].value, depth, false);
      assert v.members[k..][1..] == v.members[k + 1..];
      MembersFaultIff(v, depth, k + 1);
    }
  }

  /** A container is refused when it cannot be opened, or when what is inside is. */
  lemma ContainerRefused(d: Decoder, isArray: bool, middle: seq<Token>)
    requires OnBegin(d, isArray).Ok? ==> Run(OnBegin(d, isArray).value, middle).Err?
    ensures Run(d, (if isArray then [BeginArray] else [BeginObject]) + middle
                   + (if isArray then [EndArray] else [EndObject]))
            == if OnBegin(d, isArray).Err? then OnBegin(d, isArray) else Run(OnBegin(d, isArray).value, middle)
  {
    RunAround(d, if isArray then BeginArray else BeginObject, middle, if isArray then EndArray else EndObject);
  }

  lemma Unopened(d: Decoder, isArray: bool)
    requires Nested(d) && |d.path| <= INT_MAX
    ensures OnBegin(d, isArray).Ok? <==> |d.path| < INT_MAX && !Full(d.path)
    ensures OnBegin(d, isArray).Err? ==>
              OnBegin(d, isArray).error == if |d.path| == INT_MAX then TooManyLevels else ArrayTooLong
  {}

  /** A value that does not fit, or for which its array has no room, makes the loop fail with its first fault. */
  lemma {:induction false} RefuseValue(d: Decoder, v: Json)
    requires Nested(d) && |d.path| <= INT_MAX && Fault(v, |d.path|, Full(d.path)).Some?
    ensures Run(d, Tokens(v)) == Result.Err(Fault(v, |d.path|, Full(d.path)).value)
    decreases v, 1, 0
  {
    match v
    case Leaf(lit) => RunOne(d, LeafToken(lit));
    case Array(elems) =>
      Unopened(d, true);
      if OnBegin(d, true).Ok? {
        Opened(d, true);
        assert elems[0..] == elems;
        RefuseElems(OnBegin(d, true).value, v, 0);
      }
      ContainerRefused(d, true, ElemTokens(elems));
    case Object(members) =>
      Unopened(d, false);
      if OnBegin(d, false).Ok? {
        Opened(d, false);
        assert members[0..] == members;
        RefuseMembers(OnBegin(d, false).value, v, 0);
      }
      ContainerRefused(d, false, MemberTokens(members));
  }

  lemma {:induction false} RefuseElems(d: Decoder, v: Json, k: nat)
    requires v.Array? && k <= |v.elems| && k <= INT_MAX && |d.path| <= INT_MAX
    requires Nested(d) && d.path != [] && Last(d.path) == Index(k)
    requires ElemsFault(v.elems[k..], |d.path|, k).Some?
    ensures Run(d, ElemTokens(v.elems[k..])) == Result.Err(ElemsFault(v.elems[k..], |d.path|, k).value)
    decreases v, 0, |v.elems| - k
  {
    assert v.elems[k..][1..] == v.elems[k + 1..];
    RunConcat(d, Tokens(v.elems[k]), ElemTokens(v.elems[k + 1..]));
    FaultIff(v.elems[k], |d.path|, Full(d.path));
    if Fault(v.elems[k], |d.path|, Full(d.path)).Some? {
      RefuseValue(d, v.elems[k]);
    } else {
      var x := DecodeValue(d, v.elems[k]);
      RefuseElems(Run(d, Tokens(v.elems[k])).value, v, k + 1);
    }
  }

  lemma {:induction false} RefuseMembers(d: Decoder, v: Json, k: nat)
    requires v.Object? && k <= |v.members| && |d.path| <= INT_MAX
    requires Nested(d) && d.path != [] && Last(d.path).Field?
    requires MembersFault(v.members[k..], |d.path|).Some?
    ensures Run(d, MemberTokens(v.members[k..])) == Result.Err(MembersFault(v.members[k..], |d.path|).value)
    decreases v, 0, |v.members| - k
  {
    var m := v.members[k];
    var d0 := OnKey(d, m.name).value;
    assert v.members[k..][1..] == v.members[k + 1..];
    RunConcat(d, [KeyToken(m.name)] + Tokens(m.value), MemberTokens(v.members[k + 1..]));
    RunConcat(d, [KeyToken(m.name)], Tokens(m.value));
    RunOne(d, KeyToken(m.name));
    FaultIff(m.value, |d.path|, false);
    if Fault(m.value, |d.path|, false).Some? {
      RefuseValue(d0, m.value);
    } else {
      var x := DecodeValue(d0, m.value);
      RefuseMembers(Run(d0, Tokens(m.value)).value, v, k + 1);
    }
  }

  // ---------------------------------------------------------------- the main result

  lemma SomeToken(v: Json)
    ensures Tokens(v) != []
  {}

  /**
    A document is decoded exactly when it fits, else its first fault is the error. The result denotes it, its
    tables are new, each refers to younger tables only, and no table that was there before has changed.
   */
  lemma DecodeRefinesMeaning(h: Heap, v: Json)
    ensures Decode(h, Stream(Tokens(v), false)).Ok? <==> Fits(v, 0)
    ensures !Fits(v, 0) ==>
              Fault(v, 0, false).Some? && Decode(h, Stream(Tokens(v), false)) == Result.Err(Fault(v, 0, false).value)
    ensures Fits(v, 0) ==>
              var r := Decode(h, Stream(Tokens(v), false)).value;
              && Denotes(r.heap, r.value, v) && Kept(h, r.heap, 0)
              && (r.value.TableRef? ==> |h| <= r.value.ref)
  {
    SomeToken(v);
    FaultIff(v, 0, false);
    if Fits(v, 0) {
      var x := DecodeValue(Start(h), v);
    } else {
      RefuseValue(Start(h), v);
    }
  }

  /**
    A reader that fails inside a document: its error is the answer, unless a fault of the document came before;
    a fault that was met stays the answer however far the reader gets. No tokens at all are too few.
   */
  lemma ReaderFails(h: Heap, v: Json, tokens: seq<Token>)
    requires tokens <= Tokens(v)
    ensures var r := Decode(h, Stream(tokens, true));
            || r == Result.Err(ReaderError)
            || (tokens != [] && Fault(v, 0, false).Some? && r == Result.Err(Fault(v, 0, false).value))
    ensures tokens == Tokens(v) ==>
              Decode(h, Stream(tokens, true)) ==
                Result.Err(if Fault(v, 0, false).Some? then Fault(v, 0, false).value else ReaderError)
    ensures Decode(h, Stream([], false)) == Result.Err(InsufficientTokens)
  {
    var rest := Tokens(v)[|tokens|..];
    assert Tokens(v) == tokens + rest;
    RunConcat(Start(h), tokens, rest);
    DecodeRefinesMeaning(h, v);
    FaultIff(v, 0, false);
    SomeToken(v);
  }

  lemma FaultStays(h: Heap, tokens: seq<Token>, more: seq<Token>)
    requires Decode(h, Stream(tokens, true)).error != ReaderError
    ensures Decode(h, Stream(tokens + more, true)) == Decode(h, Stream(tokens, true))
  {
    RunConcat(Start(h), tokens, more);
  }
}
