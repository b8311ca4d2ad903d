/** The loop itself, changing the heap, the path and the tree stack token by token. */
module JsonLoop {
  import opened Wrappers
  import opened JsonDecode
  import opened JsonPath

  /** Puts a value into the innermost container; in an array the count goes up first. */
  method StoreLast(heap: Heap, path: seq<PathEntry>, table: Ref, x: Lua)
    returns (ok: bool, heap': Heap, path': seq<PathEntry>)
    requires path != [] && table < |heap|
    ensures var r := Store(Decoder(heap, path, map[], TableRef(table)), x);
            ok == r.Ok? && (r.Err? ==> r.error == ArrayTooLong)
            && (ok ==> heap' == r.value.heap && path' == r.value.path)
  {
    ok, heap', path' := true, heap, path;
    match path[|path| - 1]
    case Field(key) =>
      heap' := SetField(heap, table, Name(key), x);
    case Index(n) =>
      if n == ARRAY_KEY_MAX {
        return false, heap, path;
      }
      path' := path[..|path| - 1] + [Index(n + 1)];
      heap' := SetField(heap, table, Idx(n + 1), x);
  }

  /** `on_leaf`. */
  method AddLeaf(heap: Heap, path: seq<PathEntry>, ghost tree: map<nat, Ref>, top: Lua, lit: Literal)
    returns (e: Option<Error>, heap': Heap, path': seq<PathEntry>, top': Lua)
    requires path != [] ==> top.TableRef? && top.ref < |heap|
    ensures var r := OnLeaf(Decoder(heap, path, tree, top), lit);
            if r.Err? then e == Some(r.error) else e == None && r.value == Decoder(heap', path', tree, top')
  {
    e, heap', path', top' := None, heap, path, top;
    if !Converts(lit) {
      e := Some(ResultOutOfRange);
    } else if |path| == 0 {
      top' := LuaOf(lit);
    } else {
      var ok;
      ok, heap', path' := StoreLast(heap, path, top.ref, LuaOf(lit));
      e := if ok then None else Some(ArrayTooLong);
    }
  }

  /** A begin token. */
  method Open(heap: Heap, path: seq<PathEntry>, tree: map<nat, Ref>, top: Lua, isArray: bool)
    returns (e: Option<Error>, heap': Heap, path': seq<PathEntry>, tree': map<nat, Ref>, top': Lua)
    requires path != [] ==> top.TableRef? && top.ref < |heap|
    ensures var r := OnBegin(Decoder(heap, path, tree, top), isArray);
            if r.Err? then e == Some(r.error) else e == None && r.value == Decoder(heap', path', tree', top')
  {
    e, heap', path', tree', top' := None, heap, path, tree, top;
    if |path| == ARRAY_KEY_MAX {
      e := Some(TooManyLevels);
      return;
    }
    var child := |heap|;
    heap' := heap + [Table(isArray, map[])];
    if |path| > 0 {
      var ok;
      ok, heap', path' := StoreLast(heap', path, top.ref, TableRef(child));
      if !ok {
        e := Some(ArrayTooLong);
        return;
      }
    }
    path' := path' + [if isArray then Index(0) else Field("")];
    top' := TableRef(child);
    tree' := tree[|path'| := child];
  }

  /** An end token: back to the container around the one that ends. */
  method Close(path: seq<PathEntry>, tree: map<nat, Ref>, ghost heap: Heap, top: Lua)
    returns (path': seq<PathEntry>, tree': map<nat, Ref>, top': Lua)
    requires path != [] && (|path| > 1 ==> |path| - 1 in tree)
    ensures OnEnd(Decoder(heap, path, tree, top)) == Result.Ok(Decoder(heap, path', tree', top'))
  {
    path', tree', top' := path[..|path| - 1], tree, top;
    if |path'| > 0 {
      tree' := tree - {|path'| + 1};
      top' := TableRef(tree'[|path'|]);
    }
  }

  /** The switch over one token. */
  method OneToken(heap: Heap, path: seq<PathEntry>, tree: map<nat, Ref>, top: Lua, t: Token)
    returns (e: Option<Error>, heap': Heap, path': seq<PathEntry>, tree': map<nat, Ref>, top': Lua)
    requires path != [] ==> top.TableRef? && top.ref < |heap|
    requires t.KeyToken? || t.EndArray? || t.EndObject? ==> path != [] && (|path| > 1 ==> |path| - 1 in tree)
    ensures var r := Step(Decoder(heap, path, tree, top), t);
            if r.Err? then e == Some(r.error) else e == None && r.value == Decoder(heap', path', tree', top')
  {
    e, heap', path', tree', top' := None, heap, path, tree, top;
    match t
    case LeafToken(lit) => e, heap', path', top' := AddLeaf(heap, path, tree, top, lit);
    case KeyToken(name) => path' := path[..|path| - 1] + [Field(name)];
    case BeginArray => e, heap', path', tree', top' := Open(heap, path, tree, top, true);
    case BeginObject => e, heap', path', tree', top' := Open(heap, path, tree, top, false);
    case _ => path', tree', top' := Close(path, tree, heap, top);
  }

  lemma ReadyForToken(d: Decoder, g: Grammar, base: nat, t: Token)
    requires PathInv(d, g, base) && Accepts(g, t)
    ensures d.path != [] ==> d.top.TableRef? && d.top.ref < |d.heap|
    ensures t.KeyToken? || t.EndArray? || t.EndObject? ==> d.path != [] && (|d.path| > 1 ==> |d.path| - 1 in d.tree)
  {
    if |d.path| > 1 {
      assert SlotOk(d, base, |d.path| - 1);
    }
  }

  /** `decode`. The reader lets through only tokens in an order that the grammar allows. */
  method DecodeText(h: Heap, input: Stream) returns (r: Result<Decoded, Error>)
    requires Legal(Outset(), input.tokens)
    ensures r == Decode(h, input)
  {
    var tokens := input.tokens;
    if |tokens| == 0 {
      return Err(if input.failed then ReaderError else InsufficientTokens);
    }
    var heap: Heap, path: seq<PathEntry>, tree: map<nat, Ref>, top: Lua := h, [], map[], Nil;
    var i := 0;
    ghost var g := Outset();
    assert tokens[0..] == tokens;
    while i < |tokens|
      invariant i <= |tokens| && Legal(g, tokens[i..])
      invariant PathInv(Decoder(heap, path, tree, top), g, |h|)
      invariant Run(Start(h), tokens) == Run(Decoder(heap, path, tree, top), tokens[i..])
    {
      ghost var d := Decoder(heap, path, tree, top);
      ReadyForToken(d, g, |h|, tokens[i]);
      StepKeepsPath(d, g, |h|, tokens[i]);
      assert tokens[i..][1..] == tokens[i + 1..];
      var e;
      e, heap, path, tree, top := OneToken(heap, path, tree, top, tokens[i]);
      if e.Some? {
        return Err(e.value);
      }
      g := After(g, tokens[i]);
      i := i + 1;
    }
    if input.failed {
      return Err(ReaderError);
    }
    r := Ok(Decoded(heap, top));
  }
}
