/** What holds between two tokens of any text that the reader lets through, decoded or not. */
module JsonPath {
  import opened Wrappers
  import opened JsonDecode

  // ---------------------------------------------------------------- the order of tokens (RFC 8259, sections 2 to 5)

  /** Where the reader stands in each open container. */
  datatype Frame = InArray | AtKey | AtValue

  datatype Grammar = Grammar(frames: seq<Frame>, done: bool)

  function Inner(g: Grammar): Frame
    requires g.frames != []
  {
    g.frames[|g.frames| - 1]
  }

  predicate ExpectsValue(g: Grammar) {
    if g.frames == [] then !g.done else !Inner(g).AtKey?
  }

  function SetInner(g: Grammar, f: Frame): Grammar
    requires g.frames != []
  {
    g.(frames := g.frames[..|g.frames| - 1] + [f])
  }

  /** A value has been read, or its container opened. */
  function AfterValue(g: Grammar): Grammar {
    if g.frames == [] then g.(done := true)
    else if Inner(g).AtValue? then SetInner(g, AtKey)
    else g
  }

  predicate Accepts(g: Grammar, t: Token) {
    match t
    case LeafToken(_) => ExpectsValue(g)
    case BeginArray => ExpectsValue(g)
    case BeginObject => ExpectsValue(g)
    case KeyToken(_) => g.frames != [] && Inner(g).AtKey?
    case EndArray => g.frames != [] && Inner(g).InArray?
    case EndObject => g.frames != [] && Inner(g).AtKey?
  }

  function After(g: Grammar, t: Token): Grammar
    requires Accepts(g, t)
  {
    match t
    case LeafToken(_) => AfterValue(g)
    case BeginArray => var g1 := AfterValue(g); g1.(frames := g1.frames + [InArray])
    case BeginObject => var g1 := AfterValue(g); g1.(frames := g1.frames + [AtKey])
    case KeyToken(_) => SetInner(g, AtValue)
    case _ => g.(frames := g.frames[..|g.frames| - 1])
  }

  /** The tokens come in an order that the grammar allows. They may stop anywhere. */
  predicate Legal(g: Grammar, tokens: seq<Token>)
    decreases |tokens|
  {
    tokens != [] ==> Accepts(g, tokens[0]) && Legal(After(g, tokens[0]), tokens[1..])
  }

  function Outset(): Grammar {
    Grammar([], false)
  }

  lemma {:induction false} DocumentLegal(g: Grammar, v: Json, rest: seq<Token>)
    requires ExpectsValue(g)
    ensures Legal(g, Tokens(v) + rest) == Legal(AfterValue(g), rest)
    decreases v, 1, 0
  {
    match v
    case Leaf(lit) =>
      assert ([LeafToken(lit)] + rest)[1..] == rest;
    case Array(elems) =>
      var g1 := After(g, BeginArray);
      var tail := [EndArray] + rest;
      assert Tokens(v) + rest == [BeginArray] + (ElemTokens(elems) + tail);
      assert ([BeginArray] + (ElemTokens(elems) + tail))[1..] == ElemTokens(elems) + tail;
      ElemsLegal(g1, v, 0, tail);
      assert elems[0..] == elems;
      assert tail[1..] == rest && After(g1, EndArray) == AfterValue(g);
    case Object(members) =>
      var g1 := After(g, BeginObject);
      var tail := [EndObject] + rest;
      assert Tokens(v) + rest == [BeginObject] + (MemberTokens(members) + tail);
      assert ([BeginObject] + (MemberTokens(members) + tail))[1..] == MemberTokens(members) + tail;
      MembersLegal(g1, v, 0, tail);
      assert members[0..] == members;
      assert tail[1..] == rest && After(g1, EndObject) == AfterValue(g);
  }

  lemma {:induction false} ElemsLegal(g: Grammar, v: Json, k: nat, rest: seq<Token>)
    requires v.Array? && k <= |v.elems| && g.frames != [] && Inner(g).InArray?
    ensures Legal(g, ElemTokens(v.elems[k..]) + rest) == Legal(g, rest)
    decreases v, 0, |v.elems| - k
  {
    if k == |v.elems| {
      assert ElemTokens(v.elems[k..]) + rest == rest;
    } else {
      var more := ElemTokens(v.elems[k + 1..]) + rest;
      assert v.elems[k..][1..] == v.elems[k + 1..];
      assert ElemTokens(v.elems[k..]) + rest == Tokens(v.elems[k]) + more;
      DocumentLegal(g, v.elems[k], more);
      ElemsLegal(g, v, k + 1, rest);
    }
  }

  lemma {:induction false} MembersLegal(g: Grammar, v: Json, k: nat, rest: seq<Token>)
    requires v.Object? && k <= |v.members| && g.frames != [] && Inner(g).AtKey?
    ensures Legal(g, MemberTokens(v.members[k..]) + rest) == Legal(g, rest)
    decreases v, 0, |v.members| - k
  {
    if k == |v.members| {
      assert MemberTokens(v.members[k..]) + rest == rest;
    } else {
      var m, g1 := v.members[k], SetInner(g, AtValue);
      var more := MemberTokens(v.members[k + 1..]) + rest;
      assert v.members[k..][1..] == v.members[k + 1..];
      assert MemberTokens(v.members[k..]) + rest == [KeyToken(m.name)] + (Tokens(m.value) + more);
      assert ([KeyToken(m.name)] + (Tokens(m.value) + more))[1..] == Tokens(m.value) + more;
      DocumentLegal(g1, m.value, more);
      assert AfterValue(g1) == g;
      MembersLegal(g, v, k + 1, rest);
    }
  }

  lemma {:induction false} PrefixLegal(g: Grammar, a: seq<Token>, b: seq<Token>)
    requires Legal(g, a + b)
    ensures Legal(g, a)
    decreases |a|
  {
    if a != [] {
      assert (a + b)[1..] == a[1..] + b;
      PrefixLegal(After(g, a[0]), a[1..], b);
    }
  }

  /** Every beginning of a document is legal. */
  lemma DocumentPrefixLegal(v: Json, tokens: seq<Token>)
    requires tokens <= Tokens(v)
    ensures Legal(Outset(), tokens)
  {
    DocumentLegal(Outset(), v, []);
    assert Tokens(v) + [] == tokens + Tokens(v)[|tokens|..];
    PrefixLegal(Outset(), tokens, Tokens(v)[|tokens|..]);
  }

  // ---------------------------------------------------------------- the invariant of the loop

  /** Slot `i` of the tree stack is the `i`-th open container, with what the path says about it. */
  ghost predicate SlotOk(d: Decoder, base: nat, i: nat)
    requires 1 <= i <= |d.path|
  {
    && i in d.tree && base <= d.tree[i] < |d.heap|
    && d.heap[d.tree[i]].isArray == d.path[i - 1].Index?
    && (d.path[i - 1].Index? ==> d.path[i - 1].n <= INT_MAX)
  }

  /** Container `i + 1` is stored in container `i`, under what the path names. */
  ghost predicate LinkOk(d: Decoder, base: nat, i: nat)
    requires 1 <= i < |d.path| && SlotOk(d, base, i) && SlotOk(d, base, i + 1)
  {
    && d.tree[i] < d.tree[i + 1]
    && KeyOf(d.path[i - 1]) in d.heap[d.tree[i]].fields
    && d.heap[d.tree[i]].fields[KeyOf(d.path[i - 1])] == TableRef(d.tree[i + 1])
  }

  /** No index beyond what lua_rawseti can take. */
  ghost predicate IndicesOk(h: Heap, base: nat) {
    forall r: nat, n: nat {:trigger Idx(n) in h[r].fields} ::
      base <= r < |h| && Idx(n) in h[r].fields ==> 1 <= n <= INT_MAX
  }

  ghost predicate PathInv(d: Decoder, g: Grammar, base: nat) {
    && base <= |d.heap| && IndicesOk(d.heap, base)
    && |d.path| == |g.frames| <= INT_MAX
    && (forall i :: 0 <= i < |d.path| ==> d.path[i].Index? == g.frames[i].InArray?)
    && (forall i :: 1 <= i <= |d.path| ==> SlotOk(d, base, i))
    && (forall i :: 1 <= i < |d.path| ==> LinkOk(d, base, i))
    && (forall i :: i in d.tree ==> 1 <= i && (i == 1 || i <= |d.path|))
    && (if g.done then true else d.path == [] && d.tree == map[])
    && (d.path != [] ==> SlotOk(d, base, |d.path|) && d.top == TableRef(d.tree[|d.path|]))
  }

  lemma {:induction false} TreeIncreasing(d: Decoder, g: Grammar, base: nat, i: nat, j: nat)
    requires PathInv(d, g, base) && 1 <= i < j <= |d.path|
    ensures SlotOk(d, base, i) && SlotOk(d, base, j) && d.tree[i] < d.tree[j]
    decreases j
  {
    assert SlotOk(d, base, i) && SlotOk(d, base, j - 1) && SlotOk(d, base, j);
    assert LinkOk(d, base, j - 1);
    if i < j - 1 {
      TreeIncreasing(d, g, base, i, j - 1);
    }
  }

  /** Storing a value only touches the innermost container. */
  lemma StoreKeeps(d: Decoder, g: Grammar, base: nat, x: Lua)
    requires PathInv(d, g, base) && d.path != [] && !Inner(g).AtKey?
    ensures Store(d, x) != Err(OutOfGrammar)
    ensures Store(d, x).Ok? ==>
              && PathInv(Store(d, x).value, AfterValue(g), base)
              && KeyOf(Last(Store(d, x).value.path)) in Store(d, x).value.heap[d.top.ref].fields
              && Store(d, x).value.heap[d.top.ref].fields[KeyOf(Last(Store(d, x).value.path))] == x
  {
    if Store(d, x).Ok? {
      var d1 := Store(d, x).value;
      var m := |d.path|;
      forall i | 1 <= i <= m
        ensures SlotOk(d1, base, i) && (i < m ==> d1.heap[d1.tree[i]] == d.heap[d.tree[i]] && d1.path[i - 1] == d.path[i - 1])
      {
        assert SlotOk(d, base, i);
        if i < m {
          TreeIncreasing(d, g, base, i, m);
        }
      }
      forall i | 1 <= i < m
        ensures LinkOk(d1, base, i)
      {
        assert LinkOk(d, base, i);
      }
    }
  }

  /** The new container is linked below the innermost one and takes its place. */
  lemma PushKeeps(d: Decoder, g: Grammar, base: nat, isArray: bool)
    requires PathInv(d, g, base) && g.done && |d.path| < INT_MAX && |d.heap| > base
    requires var c := |d.heap| - 1;
             && d.heap[c] == Table(isArray, map[])
             && (forall i :: 1 <= i <= |d.path| ==> SlotOk(d, base, i) && d.tree[i] < c)
             && (d.path != [] ==> KeyOf(Last(d.path)) in d.heap[d.tree[|d.path|]].fields
                                  && d.heap[d.tree[|d.path|]].fields[KeyOf(Last(d.path))] == TableRef(c))
    ensures var c := |d.heap| - 1;
            PathInv(d.(path := d.path + [if isArray then Index(0) else Field("")], top := TableRef(c),
                       tree := d.tree[|d.path| + 1 := c]),
                    g.(frames := g.frames + [if isArray then InArray else AtKey]), base)
  {
    var c, m := |d.heap| - 1, |d.path|;
    var d1 := d.(path := d.path + [if isArray then Index(0) else Field("")], top := TableRef(c), tree := d.tree[m + 1 := c]);
    forall i | 1 <= i <= m + 1
      ensures SlotOk(d1, base, i)
    {
      if i <= m {
        assert SlotOk(d, base, i);
      }
    }
    forall i | 1 <= i < m + 1
      ensures LinkOk(d1, base, i)
    {
      if i < m {
        assert LinkOk(d, base, i);
      }
    }
  }

  /** A new table that nothing refers to yet changes nothing. */
  lemma AllocateKeeps(d: Decoder, g: Grammar, base: nat, isArray: bool)
    requires PathInv(d, g, base)
    ensures PathInv(d.(heap := d.heap + [Table(isArray, map[])]), g, base)
  {
    var d1 := d.(heap := d.heap + [Table(isArray, map[])]);
    forall i | 1 <= i <= |d.path|
      ensures SlotOk(d1, base, i)
    {
      assert SlotOk(d, base, i);
    }
    forall i | 1 <= i < |d.path|
      ensures LinkOk(d1, base, i)
    {
      assert LinkOk(d, base, i);
    }
  }

  lemma NestedBeginKeeps(d: Decoder, d1: Decoder, g: Grammar, base: nat, isArray: bool)
    requires PathInv(d, g, base) && ExpectsValue(g) && d.path != [] && |d.path| < INT_MAX
    requires d1 == d.(heap := d.heap + [Table(isArray, map[])]) && PathInv(d1, g, base)
    ensures OnBegin(d, isArray) != Err(OutOfGrammar)
    ensures OnBegin(d, isArray).Ok? ==>
              PathInv(OnBegin(d, isArray).value, After(g, if isArray then BeginArray else BeginObject), base)
  {
    var c := |d.heap|;
    StoreKeeps(d1, g, base, TableRef(c));
    if Store(d1, TableRef(c)).Ok? {
      var d2 := Store(d1, TableRef(c)).value;
      forall i | 1 <= i <= |d2.path|
        ensures SlotOk(d2, base, i) && d2.tree[i] < c
      {
        assert SlotOk(d, base, i) && SlotOk(d2, base, i);
      }
      PushKeeps(d2, AfterValue(g), base, isArray);
    }
  }

  lemma BeginKeeps(d: Decoder, g: Grammar, base: nat, isArray: bool)
    requires PathInv(d, g, base) && ExpectsValue(g)
    ensures OnBegin(d, isArray) != Err(OutOfGrammar)
    ensures OnBegin(d, isArray).Ok? ==>
              PathInv(OnBegin(d, isArray).value, After(g, if isArray then BeginArray else BeginObject), base)
  {
    if |d.path| < INT_MAX {
      var d1 := d.(heap := d.heap + [Table(isArray, map[])]);
      AllocateKeeps(d, g, base, isArray);
      if d.path == [] {
        assert PathInv(d1, AfterValue(g), base);
        PushKeeps(d1, AfterValue(g), base, isArray);
      } else {
        NestedBeginKeeps(d, d1, g, base, isArray);
      }
    }
  }

  lemma EndKeeps(d: Decoder, g: Grammar, base: nat)
    requires PathInv(d, g, base) && d.path != []
    ensures OnEnd(d).Ok? && PathInv(OnEnd(d).value, g.(frames := g.frames[..|g.frames| - 1]), base)
  {
    var d1, m := OnEnd(d).value, |d.path| - 1;
    forall i | 1 <= i <= m
      ensures SlotOk(d1, base, i)
    {
      assert SlotOk(d, base, i);
      assert d1.path[i - 1] == d.path[i - 1];
    }
    assert SlotOk(d, base, m + 1);
    forall i | 1 <= i < m
      ensures LinkOk(d1, base, i)
    {
      assert SlotOk(d, base, i) && SlotOk(d, base, i + 1);
      assert LinkOk(d, base, i);
    }
    if m > 0 {
      assert SlotOk(d1, base, m) && d1.top == TableRef(d1.tree[m]);
    }
    assert PathInv(d1, g.(frames := g.frames[..|g.frames| - 1]), base);
  }

  lemma KeyKeeps(d: Decoder, g: Grammar, base: nat, name: string)
    requires PathInv(d, g, base) && g.frames != [] && Inner(g).AtKey?
    ensures OnKey(d, name).Ok? && PathInv(OnKey(d, name).value, SetInner(g, AtValue), base)
  {
    var d1, m := OnKey(d, name).value, |d.path|;
    forall i | 1 <= i <= m
      ensures SlotOk(d1, base, i)
    {
      assert SlotOk(d, base, i);
    }
    forall i | 1 <= i < m
      ensures LinkOk(d1, base, i)
    {
      assert LinkOk(d, base, i);
    }
  }

  /** Every token that may come keeps the invariant, or ends the loop with one of its errors. */
  lemma StepKeepsPath(d: Decoder, g: Grammar, base: nat, t: Token)
    requires PathInv(d, g, base) && Accepts(g, t)
    ensures Step(d, t) != Err(OutOfGrammar)
    ensures Step(d, t).Ok? ==> PathInv(Step(d, t).value, After(g, t), base)
  {
    match t
    case LeafToken(lit) =>
      if Converts(lit) && d.path != [] {
        StoreKeeps(d, g, base, LuaOf(lit));
      }
    case KeyToken(name) => KeyKeeps(d, g, base, name);
    case BeginArray => BeginKeeps(d, g, base, true);
    case BeginObject => BeginKeeps(d, g, base, false);
    case EndArray => EndKeeps(d, g, base);
    case EndObject => EndKeeps(d, g, base);
  }

  function AfterAll(g: Grammar, tokens: seq<Token>): Grammar
    requires Legal(g, tokens)
    decreases |tokens|
  {
    if tokens == [] then g else AfterAll(After(g, tokens[0]), tokens[1..])
  }

  lemma {:induction false} RunKeepsPath(d: Decoder, g: Grammar, base: nat, tokens: seq<Token>)
    requires PathInv(d, g, base) && Legal(g, tokens)
    ensures Run(d, tokens) != Err(OutOfGrammar)
    ensures Run(d, tokens).Ok? ==> PathInv(Run(d, tokens).value, AfterAll(g, tokens), base)
    decreases |tokens|
  {
    if tokens != [] {
      StepKeepsPath(d, g, base, tokens[0]);
      if Step(d, tokens[0]).Ok? {
        RunKeepsPath(Step(d, tokens[0]).value, After(g, tokens[0]), base, tokens[1..]);
      }
    }
  }

  /**
    After any number of tokens of any document the invariant holds. In particular at most one slot of the
    tree stack is left at the end, and no index stored in a new table exceeds what lua_rawseti can take.
   */
  lemma PathInvariant(h: Heap, v: Json, tokens: seq<Token>)
    requires tokens <= Tokens(v)
    ensures Legal(Outset(), tokens) && Run(Start(h), tokens) != Err(OutOfGrammar)
    ensures Run(Start(h), tokens).Ok? ==>
              && PathInv(Run(Start(h), tokens).value, AfterAll(Outset(), tokens), |h|)
              && (Run(Start(h), tokens).value.path == [] ==> Run(Start(h), tokens).value.tree.Keys <= {1})
  {
    DocumentPrefixLegal(v, tokens);
    RunKeepsPath(Start(h), Outset(), |h|, tokens);
  }
}
