/**
  Decoding of JSON text (RFC 8259) into Lua tables: a loop over the tokens of a
  pull reader that keeps the path of open containers and a stack of their tables.
  The tables live in an explicit heap and are named by their positions in it.
 */
module JsonDecode {
  import opened Wrappers

  const ARRAY_KEY_MAX: nat := 0x7FFF_FFFF

  type Ref = nat

  datatype Key = Idx(index: nat) | Name(name: string)

  datatype Lua =
    | Nil
    | JsonNull                       // the sentinel that stands for null inside tables
    | Bool(b: bool)
    | Integer(i: int)
    | Number(r: real)
    | Text(s: string)
    | TableRef(ref: Ref)

  datatype Table = Table(isArray: bool, fields: map<Key, Lua>)

  type Heap = seq<Table>

  /** A number that does not convert to the type Lua uses for it is `None`. */
  datatype Literal = NullLit | BoolLit(b: bool) | IntLit(i: Option<int>) | RealLit(r: Option<real>) | StrLit(s: string)

  datatype Token = LeafToken(lit: Literal) | KeyToken(name: string) | BeginArray | BeginObject | EndArray | EndObject

  /** The last element of an array stored so far, or the current member of an object. */
  datatype PathEntry = Index(n: nat) | Field(name: string)

  datatype Error =
    | ReaderError
    | InsufficientTokens
    | ResultOutOfRange
    | ArrayTooLong
    | TooManyLevels
    | OutOfGrammar                   // the reader never gives such a token

  /** The variables of the loop: `tree` is the tree stack, `top` the item above it on the Lua stack. */
  datatype Decoder = Decoder(heap: Heap, path: seq<PathEntry>, tree: map<nat, Ref>, top: Lua)

  // ---------------------------------------------------------------- one token

  predicate Converts(lit: Literal) {
    match lit
    case IntLit(i) => i.Some?
    case RealLit(r) => r.Some?
    case _ => true
  }

  function LuaOf(lit: Literal): Lua
    requires Converts(lit)
  {
    match lit
    case NullLit => JsonNull
    case BoolLit(b) => Bool(b)
    case IntLit(i) => Integer(i.value)
    case RealLit(r) => Number(r.value)
    case StrLit(s) => Text(s)
  }

  function SetField(h: Heap, r: Ref, k: Key, x: Lua): Heap
    requires r < |h|
  {
    h[r := h[r].(fields := h[r].fields[k := x])]
  }

  /** The path after one more value, and the key that the value is stored under. */
  function Bump(path: seq<PathEntry>): seq<PathEntry>
    requires path != []
  {
    match path[|path| - 1]
    case Field(_) => path
    case Index(n) => path[..|path| - 1] + [Index(n + 1)]
  }

  function KeyOf(e: PathEntry): Key {
    match e
    case Field(name) => Name(name)
    case Index(n) => Idx(n)
  }

  function Last(path: seq<PathEntry>): PathEntry
    requires path != []
  {
    path[|path| - 1]
  }

  predicate Full(path: seq<PathEntry>) {
    path != [] && Last(path) == Index(ARRAY_KEY_MAX)
  }

  /** Stores a value into the innermost open container. */
  function Store(d: Decoder, x: Lua): Result<Decoder, Error>
    requires d.path != []
  {
    if Full(d.path) then Err(ArrayTooLong)
    else if !d.top.TableRef? || d.top.ref >= |d.heap| then Err(OutOfGrammar)
    else
      var path := Bump(d.path);
      Ok(d.(path := path, heap := SetField(d.heap, d.top.ref, KeyOf(Last(path)), x)))
  }

  function OnLeaf(d: Decoder, lit: Literal): Result<Decoder, Error> {
    if !Converts(lit) then Err(ResultOutOfRange)
    else if d.path == [] then Ok(d.(top := LuaOf(lit)))
    else Store(d, LuaOf(lit))
  }

  function OnKey(d: Decoder, name: string): Result<Decoder, Error> {
    if d.path == [] then Err(OutOfGrammar)
    else Ok(d.(path := d.path[..|d.path| - 1] + [Field(name)]))
  }

  /** The new table goes into its parent first; then it becomes the current item and a slot of the tree stack. */
  function OnBegin(d: Decoder, isArray: bool): Result<Decoder, Error> {
    if |d.path| == ARRAY_KEY_MAX then Err(TooManyLevels)
    else
      var child := |d.heap|;
      var d1 := d.(heap := d.heap + [Table(isArray, map[])]);
      var d2 := if d.path == [] then Ok(d1) else Store(d1, TableRef(child));
      if d2.Err? then d2
      else
        var path := d2.value.path + [if isArray then Index(0) else Field("")];
        Ok(d2.value.(path := path, top := TableRef(child), tree := d.tree[|path| := child]))
  }

  function OnEnd(d: Decoder): Result<Decoder, Error> {
    if d.path == [] then Err(OutOfGrammar)
    else
      var path := d.path[..|d.path| - 1];
      if path == [] then Ok(d.(path := path))
      else
        var tree := d.tree - {|path| + 1};
        Ok(d.(path := path, tree := tree, top := if |path| in tree then TableRef(tree[|path|]) else Nil))
  }

  function Step(d: Decoder, t: Token): Result<Decoder, Error> {
    match t
    case LeafToken(lit) => OnLeaf(d, lit)
    case KeyToken(name) => OnKey(d, name)
    case BeginArray => OnBegin(d, true)
    case BeginObject => OnBegin(d, false)
    case EndArray => OnEnd(d)
    case EndObject => OnEnd(d)
  }

  function Run(d: Decoder, tokens: seq<Token>): Result<Decoder, Error>
    decreases |tokens|
  {
    if tokens == [] then Ok(d)
    else
      var d1 := Step(d, tokens[0]);
      if d1.Err? then d1 else Run(d1.value, tokens[1..])
  }

  function Start(h: Heap): Decoder {
    Decoder(h, [], map[], Nil)
  }

  /** What the reader delivers: tokens, then the end of the text or an error. */
  datatype Stream = Stream(tokens: seq<Token>, failed: bool)

  datatype Decoded = Decoded(heap: Heap, value: Lua)

  function Decode(h: Heap, input: Stream): Result<Decoded, Error> {
    if input.tokens == [] then Err(if input.failed then ReaderError else InsufficientTokens)
    else
      var d := Run(Start(h), input.tokens);
      if d.Err? then Err(d.error)
      else if input.failed then Err(ReaderError)
      else Ok(Decoded(d.value.heap, d.value.top))
  }

  // ---------------------------------------------------------------- the meaning of a document

  datatype Json = Leaf(lit: Literal) | Array(elems: seq<Json>) | Object(members: seq<Member>)

  datatype Member = Member(name: string, value: Json)

  function Tokens(v: Json): seq<Token> {
    match v
    case Leaf(lit) => [LeafToken(lit)]
    case Array(elems) => [BeginArray] + ElemTokens(elems) + [EndArray]
    case Object(members) => [BeginObject] + MemberTokens(members) + [EndObject]
  }

  function ElemTokens(elems: seq<Json>): seq<Token> {
    if elems == [] then [] else Tokens(elems[0]) + ElemTokens(elems[1..])
  }

  function MemberTokens(members: seq<Member>): seq<Token> {
    if members == [] then []
    else [KeyToken(members[0].name)] + Tokens(members[0].value) + MemberTokens(members[1..])
  }

  const INT_MAX: nat := 2147483647   // the largest int

  ghost predicate OutOfRange(lit: Literal) {
    lit == IntLit(None) || lit == RealLit(None)
  }

  /** No deeper and no array longer than an int can count, and every number in range. */
  ghost predicate Fits(v: Json, depth: nat) {
    match v
    case Leaf(lit) => !OutOfRange(lit)
    case Array(elems) =>
      && depth < INT_MAX && |elems| <= INT_MAX
      && forall i :: 0 <= i < |elems| ==> Fits(elems[i], depth + 1)
    case Object(members) =>
      && depth < INT_MAX
      && forall i :: 0 <= i < |members| ==> Fits(members[i].value, depth + 1)
  }

  /** What is wrong with a document, from left to right; `full` says that the array around it has no room. */
  ghost function Fault(v: Json, depth: nat, full: bool): Option<Error>
    decreases v
  {
    match v
    case Leaf(lit) => if OutOfRange(lit) then Some(ResultOutOfRange) else if full then Some(ArrayTooLong) else None
    case Array(elems) =>
      if depth >= INT_MAX then Some(TooManyLevels)
      else if full then Some(ArrayTooLong)
      else ElemsFault(elems, depth + 1, 0)
    case Object(members) =>
      if depth >= INT_MAX then Some(TooManyLevels)
      else if full then Some(ArrayTooLong)
      else MembersFault(members, depth + 1)
  }

  /** The same for the elements of an array that has `k` elements already. */
  ghost function ElemsFault(elems: seq<Json>, depth: nat, k: nat): Option<Error>
    decreases elems
  {
    if elems == [] then None
    else
      var first := Fault(elems[0], depth, k == INT_MAX);
      if first.Some? then first else ElemsFault(elems[1..], depth, k + 1)
  }

  ghost function MembersFault(members: seq<Member>, depth: nat): Option<Error>
    decreases members
  {
    if members == [] then None
    else
      var first := Fault(members[0].value, depth, false);
      if first.Some? then first else MembersFault(members[1..], depth)
  }

  /** The Lua value of a scalar. */
  ghost predicate Means(lit: Literal, x: Lua) {
    match lit
    case NullLit => x.JsonNull?
    case BoolLit(b) => x.Bool? && (x.b <==> b)
    case IntLit(i) => x.Integer? && i == Some(x.i)
    case RealLit(r) => x.Number? && r == Some(x.r)
    case StrLit(s) => x.Text? && x.s == s
  }

  /** A table only refers to tables made after it. */
  ghost predicate Younger(x: Lua, r: Ref) {
    x.TableRef? ==> x.ref > r
  }

  /** No later member, up to number `k`, has the same name. */
  ghost predicate IsLast(members: seq<Member>, k: nat, i: nat) {
    i < k <= |members| && forall j :: i < j < k ==> members[j].name != members[i].name
  }

  /** In heap `h`, the value `x` is the document `v`. */
  ghost predicate Denotes(h: Heap, x: Lua, v: Json)
    decreases v
  {
    match v
    case Leaf(lit) => Means(lit, x)
    case Array(elems) => x.TableRef? && HoldsElems(h, x.ref, elems, |elems|)
    case Object(members) => x.TableRef? && HoldsMembers(h, x.ref, members, |members|)
  }

  /** Table `r` is an array of the first `k` elements: keys 1 to `k`, no others. */
  ghost predicate HoldsElems(h: Heap, r: Ref, elems: seq<Json>, k: nat)
    decreases elems
  {
    && k <= |elems| && r < |h| && h[r].isArray
    && (forall i :: 1 <= i <= k ==> Idx(i) in h[r].fields)
    && (forall key :: key in h[r].fields ==>
          key.Idx? && 1 <= key.index <= k && Younger(h[r].fields[key], r)
          && Denotes(h, h[r].fields[key], elems[key.index - 1]))
  }

  /** Table `r` holds the first `k` members, the last one of each name. */
  ghost predicate HoldsMembers(h: Heap, r: Ref, members: seq<Member>, k: nat)
    decreases members
  {
    && k <= |members| && r < |h| && !h[r].isArray
    && (forall key :: key in h[r].fields ==> exists i :: 0 <= i < k && key == Name(members[i].name))
    && (forall i {:trigger IsLast(members, k, i)} :: 0 <= i < k && IsLast(members, k, i) ==>
          Name(members[i].name) in h[r].fields && Younger(h[r].fields[Name(members[i].name)], r)
          && Denotes(h, h[r].fields[Name(members[i].name)], members[i].value))
  }
}
