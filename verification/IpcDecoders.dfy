/**
  The two decoders of received messages: one fills a value for the queue, the
  other builds Lua values straight on the stack of the waiting fiber. Both are
  proved against `IpcMessage.Parse`, and both account for every descriptor.
 */
module IpcDecoders {
  import opened Wrappers
  import opened IpcMessage
  import opened IpcSender

  /** A decoded value: std::map in the queue, a Lua table in the fiber. */
  datatype Value = Leaf(item: Item) | Dict(entries: map<Bytes, Item>)

  // ---------------------------------------------------------------- which entry of a repeated key stays

  /** `std::map::emplace`: a key that is there already keeps its value. */
  function Emplace(m: map<Bytes, Item>, e: Entry): map<Bytes, Item> {
    if e.key in m then m else m[e.key := e.item]
  }

  /** `lua_rawset`. */
  function RawSet(m: map<Bytes, Item>, e: Entry): map<Bytes, Item> {
    m[e.key := e.item]
  }

  function FirstWins(entries: seq<Entry>): map<Bytes, Item>
    decreases |entries|
  {
    if entries == [] then map[] else Emplace(FirstWins(entries[..|entries| - 1]), entries[|entries| - 1])
  }

  function LastWins(entries: seq<Entry>): map<Bytes, Item>
    decreases |entries|
  {
    if entries == [] then map[] else RawSet(LastWins(entries[..|entries| - 1]), entries[|entries| - 1])
  }

  function QueueValue(m: Message): Value {
    match m
    case Flat(item) => Leaf(item)
    case Table(entries) => Dict(FirstWins(entries))
  }

  function FiberValue(m: Message): Value {
    match m
    case Flat(item) => Leaf(item)
    case Table(entries) => Dict(LastWins(entries))
  }

  ghost predicate IsFirst(entries: seq<Entry>, i: nat) {
    i < |entries| && forall j :: 0 <= j < i ==> entries[j].key != entries[i].key
  }

  ghost predicate IsLast(entries: seq<Entry>, i: nat) {
    i < |entries| && forall j :: i < j < |entries| ==> entries[j].key != entries[i].key
  }

  ghost predicate DistinctKeys(entries: seq<Entry>) {
    forall i, j :: 0 <= i < j < |entries| ==> entries[i].key != entries[j].key
  }

  lemma {:induction false} FirstWinsAt(entries: seq<Entry>, k: Bytes) returns (i: nat)
    ensures k !in FirstWins(entries) ==> forall e :: e in entries ==> e.key != k
    ensures k in FirstWins(entries) ==>
              IsFirst(entries, i) && entries[i].key == k && FirstWins(entries)[k] == entries[i].item
    decreases |entries|
  {
    i := 0;
    if entries != [] {
      var front := entries[..|entries| - 1];
      i := FirstWinsAt(front, k);
      assert entries == front + [entries[|entries| - 1]];
      if k !in FirstWins(front) {
        i := |entries| - 1;
        forall j | 0 <= j < i
          ensures entries[j].key != k
        {
          assert entries[j] in front;
        }
      }
    }
  }

  lemma {:induction false} LastWinsAt(entries: seq<Entry>, k: Bytes) returns (i: nat)
    ensures k !in LastWins(entries) ==> forall e :: e in entries ==> e.key != k
    ensures k in LastWins(entries) ==>
              IsLast(entries, i) && entries[i].key == k && LastWins(entries)[k] == entries[i].item
    decreases |entries|
  {
    i := 0;
    if entries != [] {
      var front, e := entries[..|entries| - 1], entries[|entries| - 1];
      if e.key == k {
        i := |entries| - 1;
      } else {
        i := LastWinsAt(front, k);
        assert entries == front + [e];
      }
    }
  }

  ghost predicate RepeatsAgree(entries: seq<Entry>) {
    forall i: nat, j: nat {:trigger IsFirst(entries, i), IsLast(entries, j)} ::
      IsFirst(entries, i) && IsLast(entries, j) && entries[i].key == entries[j].key ==> entries[i].item == entries[j].item
  }

  lemma SameKeys(entries: seq<Entry>)
    ensures FirstWins(entries).Keys == LastWins(entries).Keys
  {
    forall k
      ensures k in FirstWins(entries) <==> k in LastWins(entries)
    {
      var i := FirstWinsAt(entries, k);
      var j := LastWinsAt(entries, k);
      if k in FirstWins(entries) {
        assert entries[i] in entries;
      }
      if k in LastWins(entries) {
        assert entries[j] in entries;
      }
    }
  }

  /** The decoders agree exactly when the first and the last entry of every key hold the same item. */
  lemma AgreeIff(entries: seq<Entry>)
    ensures FirstWins(entries) == LastWins(entries) <==> RepeatsAgree(entries)
  {
    SameKeys(entries);
    if FirstWins(entries) == LastWins(entries) {
      forall i: nat, j: nat | IsFirst(entries, i) && IsLast(entries, j) && entries[i].key == entries[j].key
        ensures entries[i].item == entries[j].item
      {
        var k := entries[i].key;
        var i' := FirstWinsAt(entries, k);
        var j' := LastWinsAt(entries, k);
        assert entries[i] in entries;
        assert i == i' && j == j';
      }
    } else if RepeatsAgree(entries) {
      forall k | k in FirstWins(entries)
        ensures FirstWins(entries)[k] == LastWins(entries)[k]
      {
        var i := FirstWinsAt(entries, k);
        var j := LastWinsAt(entries, k);
      }
      assert false;
    }
  }

  /** With pairwise distinct keys, every message means the same to both decoders. */
  lemma DecodersAgree(m: Message)
    requires m.Table? ==> DistinctKeys(m.entries)
    ensures QueueValue(m) == FiberValue(m)
  {
    if m.Table? {
      AgreeIff(m.entries);
      forall i: nat, j: nat | IsFirst(m.entries, i) && IsLast(m.entries, j) && m.entries[i].key == m.entries[j].key
        ensures m.entries[i].item == m.entries[j].item
      {
        assert !(i < j) && !(j < i);
      }
    }
  }

  /** A message that repeats a key is read differently by the two. */
  lemma DecodersDisagree()
    ensures var m := Table([Entry([], Boolean(true)), Entry([], Boolean(false))]);
            QueueValue(m) != FiberValue(m)
  {
    var a, b := Entry([], Boolean(true)), Entry([], Boolean(false));
    assert [a, b][..1] == [a] && [a][..0] == [];
    assert FirstWins([a, b])[[]] == Boolean(true) && LastWins([a, b])[[]] == Boolean(false);
  }

  // ---------------------------------------------------------------- who owns the descriptors

  ghost function AnyKey<K, V>(m: map<K, V>): K
    requires m != map[]
    ensures AnyKey(m) in m
  {
    var k :| k in m; k
  }

  /** The descriptors that the items of a dictionary own. */
  ghost function Owned<K>(m: map<K, Item>): multiset<Fd>
    decreases |m|
  {
    if m == map[] then multiset{}
    else multiset(Fds(m[AnyKey(m)])) + Owned(m - {AnyKey(m)})
  }

  lemma OwnedFirst<K>(m: map<K, Item>, c: K)
    requires m != map[] && c == AnyKey(m)
    ensures Owned(m) == multiset(Fds(m[c])) + Owned(m - {c})
  {}

  lemma {:induction false} OwnedRemove<K>(m: map<K, Item>, k: K)
    requires k in m
    ensures Owned(m) == multiset(Fds(m[k])) + Owned(m - {k})
    decreases |m|
  {
    var c := AnyKey(m);
    OwnedFirst(m, c);
    if c != k {
      var withoutC, withoutK, rest := m - {c}, m - {k}, m - {c} - {k};
      assert withoutK - {c} == rest;
      OwnedRemove(withoutC, k);
      OwnedRemove(withoutK, c);
      Exchange(multiset(Fds(m[c])), multiset(Fds(m[k])), Owned(rest));
    }
  }

  lemma Exchange(a: multiset<Fd>, b: multiset<Fd>, c: multiset<Fd>)
    ensures a + (b + c) == b + (a + c)
  {}

  lemma OwnedBesides<K>(m: map<K, Item>, k: K, others: map<K, Item>)
    requires k in m && m - {k} == others
    ensures Owned(m) == multiset(Fds(m[k])) + Owned(others)
  {
    OwnedRemove(m, k);
  }

  lemma OwnedAdd<K>(m: map<K, Item>, k: K, item: Item)
    requires k !in m
    ensures Owned(m[k := item]) == Owned(m) + multiset(Fds(item))
  {
    OwnedBesides(m[k := item], k, m);
  }

  lemma OwnedReplace<K>(m: map<K, Item>, k: K, item: Item)
    requires k in m
    ensures Owned(m[k := item]) + multiset(Fds(m[k])) == Owned(m) + multiset(Fds(item))
  {
    OwnedBesides(m[k := item], k, m - {k});
    OwnedBesides(m, k, m - {k});
  }

  ghost function OwnedBy(r: Option<Value>): multiset<Fd> {
    match r
    case None => multiset{}
    case Some(Leaf(item)) => multiset(Fds(item))
    case Some(Dict(m)) => Owned(m)
  }

  /** Destroys a dictionary that will not be delivered; its boxes close their descriptors. */
  method Destroy(dict: map<Bytes, Item>) returns (closed: multiset<Fd>)
    ensures closed == Owned(dict)
  {
    closed := multiset{};
    var m := dict;
    while m != map[]
      invariant closed + Owned(m) == Owned(dict)
      decreases |m|
    {
      var k :| k in m;
      OwnedRemove(m, k);
      closed := closed + multiset(Fds(m[k]));
      m := m - {k};
    }
  }

  /** The slots of `received` from `idx` on are still to be claimed. */
  ghost predicate Claimed(fds: seq<Fd>, received: seq<Fd>, idx: nat) {
    && idx <= |fds| == |received|
    && (forall i :: 0 <= i < idx ==> fds[i] == -1)
    && fds[idx..] == received[idx..]
  }

  /** Scope exit: closes what nobody has claimed. */
  method CloseRest(fds: seq<Fd>, ghost received: seq<Fd>, ghost idx: nat) returns (closed: multiset<Fd>)
    requires Claimed(fds, received, idx) && -1 !in received
    ensures closed == multiset(received[idx..])
  {
    closed := multiset{};
    var i := 0;
    while i < |fds|
      invariant i <= |fds|
      invariant closed == if i <= idx then multiset{} else multiset(received[idx..i])
    {
      if i < idx {
        assert fds[i] == -1;
      } else {
        assert fds[i] == fds[idx..][i - idx] == received[i];
        assert received[idx..i + 1] == received[idx..i] + [received[i]];
        assert received[i] in received;
      }
      if fds[i] != -1 {
        closed := closed + multiset{fds[i]};
      }
      i := i + 1;
    }
    assert received[idx..|fds|] == received[idx..];
  }

  // ---------------------------------------------------------------- the decoders

  ghost function Prepend(done: seq<Entry>, rest: Option<seq<Entry>>): Option<seq<Entry>> {
    if rest.None? then None else Some(done + rest.value)
  }

  lemma Nothing(rest: Option<seq<Entry>>)
    ensures Prepend([], rest) == rest
  {
    if rest.Some? {
      assert [] + rest.value == rest.value;
    }
  }

  ghost predicate CanParse(words: seq<bv64>, nf: nat, buf: Bytes, nread: nat, off: nat, received: seq<Fd>, idx: nat) {
    nread <= |buf| && nf <= |words| && idx <= |received| && HasRoom(words[nf..], buf, off)
  }

  /** The entries that come out when `done` has been read and the loop stands at member `nf`. */
  ghost function Outlook(done: seq<Entry>, words: seq<bv64>, nf: nat, buf: Bytes, nread: nat, off: nat,
                         received: seq<Fd>, idx: nat): Option<seq<Entry>>
    requires CanParse(words, nf, buf, nread, off, received, idx)
  {
    Prepend(done, ParseFrom(words[nf..], buf, nread, off, received[idx..]))
  }

  lemma Outset(words: seq<bv64>, buf: Bytes, nread: nat, off: nat, received: seq<Fd>)
    requires nread <= |buf| && HasRoom(words, buf, off)
    ensures CanParse(words, 0, buf, nread, off, received, 0)
    ensures Outlook([], words, 0, buf, nread, off, received, 0) == ParseFrom(words, buf, nread, off, received)
  {
    assert words[0..] == words && received[0..] == received;
    Nothing(ParseFrom(words, buf, nread, off, received));
  }

  /** One round of either loop moves one entry from what is left to what is done. */
  lemma Advance(done: seq<Entry>, words: seq<bv64>, nf: nat, buf: Bytes, nread: nat, off: nat, received: seq<Fd>,
                idx: nat, e: Entry, off': nat, idx': nat, done': seq<Entry>)
    requires CanParse(words, nf, buf, nread, off, received, idx) && nf < |words| && words[nf] != NIL_MEMBER
    requires EntryAt(words[nf], buf, nread, off, received[idx..]) == Some(e)
    requires off' == off + Size(e) && idx' == idx + |Fds(e.item)| && done' == done + [e]
    ensures CanParse(words, nf + 1, buf, nread, off', received, idx')
    ensures Outlook(done, words, nf, buf, nread, off, received, idx)
            == Outlook(done', words, nf + 1, buf, nread, off', received, idx')
  {
    assert words[nf..][1..] == words[nf + 1..];
    assert received[idx..][|Fds(e.item)|..] == received[idx'..];
    var rest := ParseFrom(words[nf + 1..], buf, nread, off', received[idx'..]);
    if rest.Some? {
      assert done + ([e] + rest.value) == done' + rest.value;
    }
  }

  lemma Stuck(done: seq<Entry>, words: seq<bv64>, nf: nat, buf: Bytes, nread: nat, off: nat, received: seq<Fd>, idx: nat)
    requires CanParse(words, nf, buf, nread, off, received, idx) && nf < |words| && words[nf] != NIL_MEMBER
    requires EntryAt(words[nf], buf, nread, off, received[idx..]).None?
    ensures Outlook(done, words, nf, buf, nread, off, received, idx).None?
  {}

  lemma Finished(done: seq<Entry>, words: seq<bv64>, nf: nat, buf: Bytes, nread: nat, off: nat, received: seq<Fd>,
                 idx: nat)
    requires CanParse(words, nf, buf, nread, off, received, idx) && (nf == |words| || words[nf] == NIL_MEMBER)
    ensures Outlook(done, words, nf, buf, nread, off, received, idx) == Some(done)
  {
    assert done + [] == done;
  }

  lemma Claim(fds: seq<Fd>, received: seq<Fd>, idx: nat)
    requires Claimed(fds, received, idx) && idx < |fds|
    ensures fds[idx] == received[idx..][0] == received[idx]
    ensures Claimed(fds[idx := -1], received, idx + 1) && received[idx..][1..] == received[idx + 1..]
    ensures multiset(received[idx..]) == multiset{received[idx]} + multiset(received[idx + 1..])
  {
    assert fds[idx] == fds[idx..][0];
    assert received[idx..] == [received[idx]] + received[idx + 1..];
    assert fds[idx + 1..] == fds[idx..][1..];
  }

  /** `boundsvalid`: nothing beyond the received bytes is looked at. */
  predicate BoundsValid(end: nat, nread: nat) {
    end <= nread
  }

  /** `nextstr` of the queue: the string is bounded by the buffer only, the caller checks it. */
  method NextStr(buf: Bytes, strit: nat) returns (s: Bytes, strit': nat)
    requires strit + 256 <= |buf|
    ensures strit' == strit + 1 + buf[strit] as nat <= |buf| && s == buf[strit + 1..strit']
  {
    var size := buf[strit] as nat;
    strit' := strit + 1 + size;
    s := buf[strit + 1..strit'];
  }

  /** `nextstr` of the fiber: `None` stands for the exception that the check raises. */
  method NextStrChecked(buf: Bytes, strit: nat, nread: nat) returns (s: Option<Bytes>, strit': nat)
    requires strit + 256 <= |buf| && nread <= |buf|
    ensures s == StringAt(buf, nread, strit)
    ensures s.Some? ==> strit' == strit + 1 + |s.value|
  {
    var size := buf[strit] as nat;
    var ret := buf[strit + 1..strit + 1 + size];
    strit' := strit + 1 + size;
    if !BoundsValid(strit', nread) {
      return None, strit';
    }
    s := Some(ret);
  }

  /** The value of a member in the queue's loop: what it is, how far its string goes, which descriptor it takes. */
  method ItemForQueue(w: bv64, buf: Bytes, nread: nat, strit: nat, fds: seq<Fd>, fdsidx: nat, ghost received: seq<Fd>)
    returns (item: Option<Item>, strit': nat, fds': seq<Fd>)
    requires strit + 256 <= |buf| && nread <= |buf| && Claimed(fds, received, fdsidx)
    ensures item == ItemAt(w, buf, nread, strit, received[fdsidx..])
    ensures item.Some? ==> strit' == strit + Extent(item.value) && Claimed(fds', received, fdsidx + |Fds(item.value)|)
    ensures item.None? ==> fds' == fds
  {
    item, strit', fds' := None, strit, fds;
    match TagOf(w)
    case NumberTag => item := Some(Number(w));
    case BoolTag(b) => item := Some(Boolean(b));
    case TextTag =>
      var value, end := NextStr(buf, strit);
      if BoundsValid(end, nread) {
        item, strit' := Some(Text(value)), end;
      }
    case DescriptorTag =>
      if fdsidx != |fds| {
        Claim(fds, received, fdsidx);
        item, fds' := Some(Descriptor(fds[fdsidx])), fds[fdsidx := -1];
      }
    case AddressTag =>
      if fdsidx != |fds| {
        Claim(fds, received, fdsidx);
        item, fds' := Some(Address(fds[fdsidx])), fds[fdsidx := -1];
      }
    case UnknownTag =>
  }

  /** One round of the queue's loop, up to `dict.emplace`: the bounds of a string are checked after `nextstr`. */
  method EntryForQueue(w: bv64, buf: Bytes, nread: nat, strit: nat, fds: seq<Fd>, fdsidx: nat, ghost received: seq<Fd>)
    returns (e: Option<Entry>, strit': nat, fds': seq<Fd>)
    requires strit + 512 <= |buf| && nread <= |buf| && Claimed(fds, received, fdsidx)
    ensures e == EntryAt(w, buf, nread, strit, received[fdsidx..])
    ensures e.Some? ==> strit' == strit + Size(e.value) && Claimed(fds', received, fdsidx + |Fds(e.value.item)|)
    ensures e.None? ==> fds' == fds
  {
    e, fds' := None, fds;
    var key, item;
    key, strit' := NextStr(buf, strit);
    if !BoundsValid(strit', nread) {
      return;
    }
    item, strit', fds' := ItemForQueue(w, buf, nread, strit', fds, fdsidx, received);
    e := if item.None? then None else Some(Entry(key, item.value));
  }

  /** The value of a member in the fiber's loop: what it is, how far its string goes, which descriptor it takes. */
  method ItemForFiber(w: bv64, buf: Bytes, nread: nat, strit: nat, fds: seq<Fd>, fdsidx: nat, ghost received: seq<Fd>)
    returns (item: Option<Item>, strit': nat, fds': seq<Fd>)
    requires strit + 256 <= |buf| && nread <= |buf| && Claimed(fds, received, fdsidx)
    ensures item == ItemAt(w, buf, nread, strit, received[fdsidx..])
    ensures item.Some? ==> strit' == strit + Extent(item.value) && Claimed(fds', received, fdsidx + |Fds(item.value)|)
    ensures item.None? ==> fds' == fds
  {
    item, strit', fds' := None, strit, fds;
    match TagOf(w)
    case NumberTag => item := Some(Number(w));
    case BoolTag(b) => item := Some(Boolean(b));
    case TextTag =>
      var value, end := NextStrChecked(buf, strit, nread);
      if value.Some? {
        item, strit' := Some(Text(value.value)), end;
      }
    case DescriptorTag =>
      if fdsidx != |fds| {
        Claim(fds, received, fdsidx);
        item, fds' := Some(Descriptor(fds[fdsidx])), fds[fdsidx := -1];
      }
    case AddressTag =>
      if fdsidx != |fds| {
        Claim(fds, received, fdsidx);
        item, fds' := Some(Address(fds[fdsidx])), fds[fdsidx := -1];
      }
    case UnknownTag =>
  }

  /** One round of the fiber's loop, up to `lua_rawset`: `nextstr` itself throws. */
  method EntryForFiber(w: bv64, buf: Bytes, nread: nat, strit: nat, fds: seq<Fd>, fdsidx: nat, ghost received: seq<Fd>)
    returns (e: Option<Entry>, strit': nat, fds': seq<Fd>)
    requires strit + 512 <= |buf| && nread <= |buf| && Claimed(fds, received, fdsidx)
    ensures e == EntryAt(w, buf, nread, strit, received[fdsidx..])
    ensures e.Some? ==> strit' == strit + Size(e.value) && Claimed(fds', received, fdsidx + |Fds(e.value.item)|)
    ensures e.None? ==> fds' == fds
  {
    e, fds' := None, fds;
    var key, item;
    key, strit' := NextStrChecked(buf, strit, nread);
    if key.None? {
      return;
    }
    item, strit', fds' := ItemForFiber(w, buf, nread, strit', fds, fdsidx, received);
    e := if item.None? then None else Some(Entry(key.value, item.value));
  }

  lemma Taken(received: seq<Fd>, idx: nat, item: Item)
    requires idx <= |received| && Fds(item) <= received[idx..]
    ensures idx + |Fds(item)| <= |received|
    ensures multiset(received[idx..]) == multiset(Fds(item)) + multiset(received[idx + |Fds(item)|..])
  {
    assert received[idx..] == Fds(item) + received[idx + |Fds(item)|..];
  }

  /** Nothing is lost, nothing is owned twice. */
  ghost predicate Conserved(dict: map<Bytes, Item>, closed: multiset<Fd>, received: seq<Fd>, idx: nat) {
    idx <= |received| && Owned(dict) + closed + multiset(received[idx..]) == multiset(received)
  }

  /** What an entry drops when its key is taken: the new item in the queue, the old one in the table. */
  lemma EmplaceConserves(dict: map<Bytes, Item>, closed: multiset<Fd>, received: seq<Fd>, idx: nat, e: Entry)
    requires Conserved(dict, closed, received, idx) && Fds(e.item) <= received[idx..]
    ensures Conserved(Emplace(dict, e), closed + if e.key in dict then multiset(Fds(e.item)) else multiset{},
                      received, idx + |Fds(e.item)|)
  {
    Taken(received, idx, e.item);
    if e.key !in dict {
      OwnedAdd(dict, e.key, e.item);
    }
  }

  /** `dict.emplace`: the box of an item that is not wanted closes its descriptor. */
  method EmplaceEntry(dict: map<Bytes, Item>, closed: multiset<Fd>, e: Entry, ghost received: seq<Fd>,
               ghost idx: nat, ghost idx': nat)
    returns (dict': map<Bytes, Item>, closed': multiset<Fd>)
    requires Conserved(dict, closed, received, idx) && Fds(e.item) <= received[idx..] && idx' == idx + |Fds(e.item)|
    ensures dict' == Emplace(dict, e)
    ensures Conserved(dict', closed', received, idx')
  {
    EmplaceConserves(dict, closed, received, idx, e);
    dict' := Emplace(dict, e);
    closed' := closed + if e.key in dict then multiset(Fds(e.item)) else multiset{};
  }

  lemma RawSetConserves(dict: map<Bytes, Item>, closed: multiset<Fd>, received: seq<Fd>, idx: nat, e: Entry)
    requires Conserved(dict, closed, received, idx) && Fds(e.item) <= received[idx..]
    ensures Conserved(RawSet(dict, e), closed + if e.key in dict then multiset(Fds(dict[e.key])) else multiset{},
                      received, idx + |Fds(e.item)|)
  {
    Taken(received, idx, e.item);
    if e.key !in dict {
      OwnedAdd(dict, e.key, e.item);
    } else {
      OwnedReplace(dict, e.key, e.item);
    }
  }

  /** `lua_rawset`: the userdata of an item that is displaced is left to the collector. */
  method RawSetEntry(dict: map<Bytes, Item>, closed: multiset<Fd>, e: Entry, ghost received: seq<Fd>,
               ghost idx: nat, ghost idx': nat)
    returns (dict': map<Bytes, Item>, closed': multiset<Fd>)
    requires Conserved(dict, closed, received, idx) && Fds(e.item) <= received[idx..] && idx' == idx + |Fds(e.item)|
    ensures dict' == RawSet(dict, e)
    ensures Conserved(dict', closed', received, idx')
  {
    RawSetConserves(dict, closed, received, idx, e);
    dict' := RawSet(dict, e);
    closed' := closed + if e.key in dict then multiset(Fds(dict[e.key])) else multiset{};
  }

  lemma FrontWins(done: seq<Entry>, e: Entry)
    ensures FirstWins(done + [e]) == Emplace(FirstWins(done), e)
    ensures LastWins(done + [e]) == RawSet(LastWins(done), e)
  {
    assert (done + [e])[..|done|] == done;
  }

  /** Where either loop stands: what is done, and what is left, make the whole message. */
  ghost predicate StandsAt(words: seq<bv64>, buf: Bytes, nread: nat, start: nat, received: seq<Fd>,
                           nf: nat, strit: nat, fds: seq<Fd>, fdsidx: nat, done: seq<Entry>) {
    && nread <= |buf| && HasRoom(words, buf, start)
    && CanParse(words, nf, buf, nread, strit, received, fdsidx) && Claimed(fds, received, fdsidx)
    && ParseFrom(words, buf, nread, start, received) == Outlook(done, words, nf, buf, nread, strit, received, fdsidx)
  }

  lemma StandsNext(words: seq<bv64>, buf: Bytes, nread: nat, start: nat, received: seq<Fd>,
                   nf: nat, strit: nat, fds: seq<Fd>, fdsidx: nat, done: seq<Entry>, e: Entry,
                   strit': nat, fds': seq<Fd>, fdsidx': nat, done': seq<Entry>)
    requires StandsAt(words, buf, nread, start, received, nf, strit, fds, fdsidx, done)
    requires nf < |words| && words[nf] != NIL_MEMBER
    requires EntryAt(words[nf], buf, nread, strit, received[fdsidx..]) == Some(e)
    requires Claimed(fds', received, fdsidx')
    requires strit' == strit + Size(e) && fdsidx' == fdsidx + |Fds(e.item)| && done' == done + [e]
    ensures StandsAt(words, buf, nread, start, received, nf + 1, strit', fds', fdsidx', done')
    ensures Fds(e.item) <= received[fdsidx..]
  {
    Advance(done, words, nf, buf, nread, strit, received, fdsidx, e, strit', fdsidx', done');
  }

  /** A message is refused halfway: what was decoded and what was not yet is closed. */
  method CloseAll(dict: map<Bytes, Item>, fds: seq<Fd>, before: multiset<Fd>, ghost received: seq<Fd>, ghost fdsidx: nat)
    returns (closed: multiset<Fd>)
    requires Claimed(fds, received, fdsidx) && -1 !in received && Conserved(dict, before, received, fdsidx)
    ensures closed == multiset(received)
  {
    var ofDict := Destroy(dict);
    var rest := CloseRest(fds, received, fdsidx);
    closed := before + ofDict + rest;
  }

  /** One round of the loop: an entry is emplaced, or the message is refused and everything closed. */
  method RoundForQueue(words: seq<bv64>, buf: Bytes, nread: nat, nf: nat, strit: nat, fds: seq<Fd>, fdsidx: nat,
                       dict: map<Bytes, Item>, closed: multiset<Fd>,
                       ghost start: nat, ghost received: seq<Fd>, ghost done: seq<Entry>)
    returns (ok: bool, strit': nat, fds': seq<Fd>, fdsidx': nat, dict': map<Bytes, Item>, closed': multiset<Fd>,
             ghost done': seq<Entry>)
    requires StandsAt(words, buf, nread, start, received, nf, strit, fds, fdsidx, done) && -1 !in received
    requires Conserved(dict, closed, received, fdsidx) && dict == FirstWins(done)
    requires nf < |words| && words[nf] != NIL_MEMBER
    ensures ok ==> StandsAt(words, buf, nread, start, received, nf + 1, strit', fds', fdsidx', done')
    ensures ok ==> Conserved(dict', closed', received, fdsidx') && dict' == FirstWins(done')
    ensures !ok ==> ParseFrom(words, buf, nread, start, received).None? && closed' == multiset(received)
  {
    ok, fdsidx', dict', done' := false, fdsidx, dict, done;
    var entry;
    entry, strit', fds' := EntryForQueue(words[nf], buf, nread, strit, fds, fdsidx, received);
    if entry.None? {
      Stuck(done, words, nf, buf, nread, strit, received, fdsidx);
      closed' := CloseAll(dict, fds', closed, received, fdsidx);
      return;
    }
    ok, fdsidx', done' := true, fdsidx + |Fds(entry.value.item)|, done + [entry.value];
    StandsNext(words, buf, nread, start, received, nf, strit, fds, fdsidx, done, entry.value, strit', fds', fdsidx', done');
    FrontWins(done, entry.value);
    dict', closed' := EmplaceEntry(dict, closed, entry.value, received, fdsidx, fdsidx');
  }

  method DecodeTableForQueue(words: seq<bv64>, buf: Bytes, nread: nat, start: nat, received: seq<Fd>)
    returns (r: Option<map<Bytes, Item>>, closed: multiset<Fd>)
    requires nread <= |buf| && HasRoom(words, buf, start) && -1 !in received
    ensures var entries := ParseFrom(words, buf, nread, start, received);
            r == if entries.None? then None else Some(FirstWins(entries.value))
    ensures multiset(received) == closed + if r.None? then multiset{} else Owned(r.value)
  {
    var ok, fds, dict: map<Bytes, Item>, fdsidx: nat, strit: nat, nf: nat := true, received, map[], 0, start, 0;
    closed := multiset{};
    ghost var done: seq<Entry> := [];
    Outset(words, buf, nread, start, received);
    while nf != |words| && words[nf] != NIL_MEMBER
      invariant StandsAt(words, buf, nread, start, received, nf, strit, fds, fdsidx, done)
      invariant Conserved(dict, closed, received, fdsidx) && dict == FirstWins(done)
      decreases |words| - nf
    {
      ok, strit, fds, fdsidx, dict, closed, done :=
        RoundForQueue(words, buf, nread, nf, strit, fds, fdsidx, dict, closed, start, received, done);
      if !ok {
        return None, closed;
      }
      nf := nf + 1;
    }
    Finished(done, words, nf, buf, nread, strit, received, fdsidx);
    var rest := CloseRest(fds, received, fdsidx);
    r, closed := Some(dict), closed + rest;
  }

  /** The same for the fiber, whose table takes the entry with `lua_rawset`. */
  method RoundForFiber(words: seq<bv64>, buf: Bytes, nread: nat, nf: nat, strit: nat, fds: seq<Fd>, fdsidx: nat,
                       dict: map<Bytes, Item>, closed: multiset<Fd>,
                       ghost start: nat, ghost received: seq<Fd>, ghost done: seq<Entry>)
    returns (ok: bool, strit': nat, fds': seq<Fd>, fdsidx': nat, dict': map<Bytes, Item>, closed': multiset<Fd>,
             ghost done': seq<Entry>)
    requires StandsAt(words, buf, nread, start, received, nf, strit, fds, fdsidx, done) && -1 !in received
    requires Conserved(dict, closed, received, fdsidx) && dict == LastWins(done)
    requires nf < |words| && words[nf] != NIL_MEMBER
    ensures ok ==> StandsAt(words, buf, nread, start, received, nf + 1, strit', fds', fdsidx', done')
    ensures ok ==> Conserved(dict', closed', received, fdsidx') && dict' == LastWins(done')
    ensures !ok ==> ParseFrom(words, buf, nread, start, received).None? && closed' == multiset(received)
  {
    ok, fdsidx', dict', done' := false, fdsidx, dict, done;
    var entry;
    entry, strit', fds' := EntryForFiber(words[nf], buf, nread, strit, fds, fdsidx, received);
    if entry.None? {
      Stuck(done, words, nf, buf, nread, strit, received, fdsidx);
      closed' := CloseAll(dict, fds', closed, received, fdsidx);
      return;
    }
    ok, fdsidx', done' := true, fdsidx + |Fds(entry.value.item)|, done + [entry.value];
    StandsNext(words, buf, nread, start, received, nf, strit, fds, fdsidx, done, entry.value, strit', fds', fdsidx', done');
    FrontWins(done, entry.value);
    dict', closed' := RawSetEntry(dict, closed, entry.value, received, fdsidx, fdsidx');
  }

  method DecodeTableForFiber(words: seq<bv64>, buf: Bytes, nread: nat, start: nat, received: seq<Fd>)
    returns (r: Option<map<Bytes, Item>>, closed: multiset<Fd>)
    requires nread <= |buf| && HasRoom(words, buf, start) && -1 !in received
    ensures var entries := ParseFrom(words, buf, nread, start, received);
            r == if entries.None? then None else Some(LastWins(entries.value))
    ensures multiset(received) == closed + if r.None? then multiset{} else Owned(r.value)
  {
    var ok, fds, dict: map<Bytes, Item>, fdsidx: nat, strit: nat, nf: nat := true, received, map[], 0, start, 0;
    closed := multiset{};
    ghost var done: seq<Entry> := [];
    Outset(words, buf, nread, start, received);
    while nf != |words| && words[nf] != NIL_MEMBER
      invariant StandsAt(words, buf, nread, start, received, nf, strit, fds, fdsidx, done)
      invariant Conserved(dict, closed, received, fdsidx) && dict == LastWins(done)
      decreases |words| - nf
    {
      ok, strit, fds, fdsidx, dict, closed, done :=
        RoundForFiber(words, buf, nread, nf, strit, fds, fdsidx, dict, closed, start, received, done);
      if !ok {
        return None, closed;
      }
      nf := nf + 1;
    }
    Finished(done, words, nf, buf, nread, strit, received, fdsidx);
    var rest := CloseRest(fds, received, fdsidx);
    r, closed := Some(dict), closed + rest;
  }

  /** A single value for the queue. */
  method DecodeFlatForQueue(w: bv64, buf: Bytes, nread: nat, strbuf: nat, received: seq<Fd>)
    returns (r: Option<Item>, closed: multiset<Fd>)
    requires strbuf + 256 <= |buf| && nread <= |buf| && -1 !in received
    ensures r == ParseFlat(w, buf, nread, strbuf, received)
    ensures multiset(received) == closed + if r.None? then multiset{} else multiset(Fds(r.value))
  {
    r := None;
    var fds := received;
    match TagOf(w) {
      case NumberTag => r := Some(Number(w));
      case BoolTag(b) => r := Some(Boolean(b));
      case TextTag =>
        var v, end := NextStr(buf, strbuf);
        if BoundsValid(end, nread) {
          r := Some(Text(v));
        }
      case DescriptorTag =>
        if |fds| == 1 {
          r, fds := Some(Descriptor(fds[0])), fds[0 := -1];
        }
      case AddressTag =>
        if |fds| == 1 {
          r, fds := Some(Address(fds[0])), fds[0 := -1];
        }
      case UnknownTag =>
    }
    closed := CloseUnclaimed(fds, received, r);
  }

  /** A single value for the fiber; a throw pushes nothing. */
  method DecodeFlatForFiber(w: bv64, buf: Bytes, nread: nat, strbuf: nat, received: seq<Fd>)
    returns (r: Option<Item>, closed: multiset<Fd>)
    requires strbuf + 256 <= |buf| && nread <= |buf| && -1 !in received
    ensures r == ParseFlat(w, buf, nread, strbuf, received)
    ensures multiset(received) == closed + if r.None? then multiset{} else multiset(Fds(r.value))
  {
    r := None;
    var fds := received;
    match TagOf(w) {
      case NumberTag => r := Some(Number(w));
      case BoolTag(b) => r := Some(Boolean(b));
      case TextTag =>
        var v, end := NextStrChecked(buf, strbuf, nread);
        r := if v.None? then None else Some(Text(v.value));
      case DescriptorTag =>
        r := if |fds| != 1 then None else Some(Descriptor(fds[0]));
        fds := if |fds| != 1 then fds else fds[0 := -1];
      case AddressTag =>
        r := if |fds| != 1 then None else Some(Address(fds[0]));
        fds := if |fds| != 1 then fds else fds[0 := -1];
      case UnknownTag =>
    }
    closed := CloseUnclaimed(fds, received, r);
  }

  /** Scope exit after a single value. */
  method CloseUnclaimed(fds: seq<Fd>, received: seq<Fd>, ghost r: Option<Item>) returns (closed: multiset<Fd>)
    requires -1 !in received
    requires if r.Some? && HoldsFd(r.value) then received == [r.value.fd] && fds == [-1] else fds == received
    ensures multiset(received) == closed + if r.None? then multiset{} else multiset(Fds(r.value))
  {
    assert received[0..] == received;
    closed := CloseRest(fds, received, if r.Some? then |Fds(r.value)| else 0);
  }

  /** Decodes into the queue. */
  method DecodeForQueue(buf: Bytes, n: nat, nread: nat, received: seq<Fd>)
    returns (r: Option<Value>, closed: multiset<Fd>)
    requires IsBuffer(buf, n) && 16 <= nread <= |buf| && -1 !in received
    ensures var m := Parse(buf, n, nread, received); r == if m.None? then None else Some(QueueValue(m.value))
    ensures multiset(received) == OwnedBy(r) + closed
  {
    var words := Members(buf, n);
    if words[0] == NIL_MEMBER {
      var item;
      item, closed := DecodeFlatForQueue(words[1], buf, nread, 8 * n, received);
      r := if item.None? then None else Some(Leaf(item.value));
    } else if nread < 8 * n {
      r := None;
      closed := CloseRest(received, received, 0);
      assert received[0..] == received;
    } else {
      var dict;
      dict, closed := DecodeTableForQueue(words, buf, nread, 8 * n, received);
      r := if dict.None? then None else Some(Dict(dict.value));
    }
  }

  /** Decodes onto the stack of the waiting fiber. */
  method DecodeForFiber(buf: Bytes, n: nat, nread: nat, received: seq<Fd>)
    returns (r: Option<Value>, closed: multiset<Fd>)
    requires IsBuffer(buf, n) && 16 <= nread <= |buf| && -1 !in received
    ensures var m := Parse(buf, n, nread, received); r == if m.None? then None else Some(FiberValue(m.value))
    ensures multiset(received) == OwnedBy(r) + closed
  {
    var words := Members(buf, n);
    if words[0] == NIL_MEMBER {
      var item;
      item, closed := DecodeFlatForFiber(words[1], buf, nread, 8 * n, received);
      r := if item.None? then None else Some(Leaf(item.value));
    } else if nread < 8 * n {
      r := None;
      closed := CloseRest(received, received, 0);
      assert received[0..] == received;
    } else {
      var dict;
      dict, closed := DecodeTableForFiber(words, buf, nread, 8 * n, received);
      r := if dict.None? then None else Some(Dict(dict.value));
    }
  }

  /**
    The same message decoded both ways: accepted by both or by neither, and to the same value exactly if the
    first and the last entry of every key agree.
   */
  method DecodeBothWays(buf: Bytes, n: nat, nread: nat, received: seq<Fd>)
    returns (inQueue: Option<Value>, inFiber: Option<Value>)
    requires IsBuffer(buf, n) && 16 <= nread <= |buf| && -1 !in received
    ensures inQueue.Some? == inFiber.Some? == Parse(buf, n, nread, received).Some?
    ensures inQueue.Some? ==>
              var m := Parse(buf, n, nread, received).value;
              inQueue == inFiber <==> m.Flat? || RepeatsAgree(m.entries)
  {
    var closed;
    inQueue, closed := DecodeForQueue(buf, n, nread, received);
    inFiber, closed := DecodeForFiber(buf, n, nread, received);
    ghost var m := Parse(buf, n, nread, received);
    if m.Some? && m.value.Table? {
      AgreeIff(m.value.entries);
    }
  }

  // ---------------------------------------------------------------- from sender to receiver

  lemma {:induction false} DistinctOwned(entries: seq<Entry>)
    requires DistinctKeys(entries)
    ensures Owned(FirstWins(entries)) == multiset(AllFds(entries))
    decreases |entries|
  {
    if entries != [] {
      var front, e := entries[..|entries| - 1], entries[|entries| - 1];
      assert entries == front + [e];
      DistinctOwned(front);
      FdsAppend(front, e);
      var i := FirstWinsAt(front, e.key);
      OwnedAdd(FirstWins(front), e.key, e.item);
    }
  }

  lemma ItemDelivered(entries: seq<Entry>, i: nat)
    requires DistinctKeys(entries) && i < |entries|
    ensures entries[i].key in FirstWins(entries) && FirstWins(entries)[entries[i].key] == entries[i].item
  {
    var j := FirstWinsAt(entries, entries[i].key);
    assert entries[i] in entries;
    assert !(i < j) && !(j < i);
  }

  /**
    A table that the sender accepted arrives as the same table in the queue and in a waiting fiber, and
    owns every descriptor that was sent: none is left over to be closed.
   */
  lemma TableDelivered(entries: seq<Entry>, n: nat, buf: Bytes)
    requires SendableTable(entries, n) && DistinctKeys(entries) && IsBuffer(buf, n)
    requires EncodeTable(entries, n).bytes <= buf
    ensures var wire := EncodeTable(entries, n);
            && 16 <= |wire.bytes|
            && var m := Parse(buf, n, |wire.bytes|, wire.fds);
            && m.Some? && QueueValue(m.value) == FiberValue(m.value)
            && QueueValue(m.value).Dict?
            && (forall e :: e in entries ==>
                  e.key in QueueValue(m.value).entries && QueueValue(m.value).entries[e.key] == e.item)
            && (forall k :: k in QueueValue(m.value).entries ==> exists e :: e in entries && e.key == k)
            && OwnedBy(Some(QueueValue(m.value))) == multiset(wire.fds)
  {
    TableRoundTrip(entries, n, buf);
    DecodersAgree(Table(entries));
    DistinctOwned(entries);
    forall e | e in entries
      ensures e.key in FirstWins(entries) && FirstWins(entries)[e.key] == e.item
    {
      var i :| 0 <= i < |entries| && entries[i] == e;
      ItemDelivered(entries, i);
    }
    forall k | k in FirstWins(entries)
      ensures exists e :: e in entries && e.key == k
    {
      var i := FirstWinsAt(entries, k);
      assert entries[i] in entries;
    }
  }
}
