/**
  `send` on the address of an actor in another process: which Lua values it takes, what goes on the wire, and
  what becomes of the descriptors while the message is under way.
 */
module IpcSend {
  import opened Wrappers
  import opened Sequences
  import opened IpcMessage
  import opened IpcSender

  type Handle = nat   // a file_descriptor object of the program

  datatype Errc = EINVAL | EBUSY

  /** A Lua value, as far as send tells them apart. An address comes as the end of a fresh socket pair. */
  datatype LuaValue =
    | LuaNumber(bits: bv64)
    | LuaBoolean(b: bool)
    | LuaString(chars: Bytes)
    | LuaHandle(handle: Handle)
    | LuaAddress(fd: Fd)
    | LuaOther

  /** A pair of a table, in the order of traversal; the key is missing if it is not a string. */
  datatype Field = Field(key: Option<Bytes>, value: LuaValue)

  /** A descriptor that goes along: borrowed from a handle, or owned by the message. */
  datatype Lock = Lock(reference: Option<Handle>, value: Fd)

  type Handles = map<Handle, Fd>   // -1 stands for a handle without its descriptor

  // ---------------------------------------------------------------- what is accepted

  predicate Known(v: LuaValue, handles: Handles) {
    (v.LuaHandle? ==> v.handle in handles) && (v.LuaNumber? ==> !IsSnan(v.bits))
  }

  function ItemOf(v: LuaValue, handles: Handles): Result<Item, Errc>
    requires Known(v, handles)
  {
    match v
    case LuaNumber(bits) => Ok(Number(bits))
    case LuaBoolean(b) => Ok(Boolean(b))
    case LuaString(chars) => if |chars| > 255 then Err(EINVAL) else Ok(Text(chars))
    case LuaHandle(h) => if handles[h] == -1 then Err(EBUSY) else Ok(Descriptor(handles[h]))
    case LuaAddress(fd) => Ok(Address(fd))
    case LuaOther => Err(EINVAL)
  }

  /** What a value is on the wire. A handle goes as the descriptor that it holds. */
  ghost predicate Carries(item: Item, v: LuaValue, handles: Handles) {
    match v
    case LuaNumber(bits) => item.Number? && item.bits == bits
    case LuaBoolean(b) => item.Boolean? && (item.value <==> b)
    case LuaString(chars) => item.Text? && item.chars == chars
    case LuaHandle(h) => h in handles && item.Descriptor? && item.fd == handles[h]
    case LuaAddress(fd) => item.Address? && item.fd == fd
    case LuaOther => false
  }

  /** The values that are refused: other kinds, strings too long for their size byte, handles without a descriptor. */
  ghost predicate Faulty(v: LuaValue, handles: Handles, e: Errc) {
    match v
    case LuaString(chars) => |chars| > 255 && e == EINVAL
    case LuaHandle(h) => h in handles && handles[h] == -1 && e == EBUSY
    case LuaOther => e == EINVAL
    case _ => false
  }

  lemma ItemByKind(v: LuaValue, handles: Handles)
    requires Known(v, handles)
    ensures ItemOf(v, handles).Ok? ==> Carries(ItemOf(v, handles).value, v, handles) && forall e :: !Faulty(v, handles, e)
    ensures ItemOf(v, handles).Err? ==> Faulty(v, handles, ItemOf(v, handles).error)
    ensures forall e :: Faulty(v, handles, e) ==> ItemOf(v, handles) == Err(e)
  {}

  function LocksOf(v: LuaValue): seq<Lock> {
    match v
    case LuaHandle(h) => [Lock(Some(h), -1)]
    case LuaAddress(fd) => [Lock(None, fd)]
    case _ => []
  }

  ghost predicate AllKnown(fields: seq<Field>, handles: Handles) {
    forall f :: f in fields ==> Known(f.value, handles)
  }

  /** The pairs that count: those with a string for a key. */
  function Named(fields: seq<Field>): (r: seq<Field>)
    ensures forall f :: f in r ==> f in fields && f.key.Some?
    decreases |fields|
  {
    if fields == [] then []
    else
      var last := fields[|fields| - 1];
      Named(fields[..|fields| - 1]) + if last.key.None? then [] else [last]
  }

  /** Nothing is lost and nothing changes places among the pairs with a string for a key. */
  lemma {:induction false} NamedIsAll(fields: seq<Field>)
    ensures Subsequence(Named(fields), fields)
    ensures forall f :: multiset(Named(fields))[f] == if f.key.Some? then multiset(fields)[f] else 0
    decreases |fields|
  {
    if fields != [] {
      var front, last := fields[..|fields| - 1], fields[|fields| - 1];
      NamedIsAll(front);
      assert fields == front + [last];
      if last.key.None? {
        SubsequenceConcat(Named(front), front, [], [last]);
        assert Named(front) + [] == Named(front);
      } else {
        SubsequenceSelf([last]);
        SubsequenceConcat(Named(front), front, [last], [last]);
      }
    }
  }

  /** The entries for pairs: their keys, and items that carry their values, in order. */
  ghost predicate Spelled(entries: seq<Entry>, named: seq<Field>, handles: Handles) {
    |entries| == |named| && forall i {:trigger entries[i]} :: 0 <= i < |entries| ==>
      named[i].key == Some(entries[i].key) && Carries(entries[i].item, named[i].value, handles)
  }

  predicate Accepted(f: Field, handles: Handles)
    requires Known(f.value, handles)
  {
    f.key.Some? && |f.key.value| <= 255 && ItemOf(f.value, handles).Ok?
  }

  /** Not too many pairs, and every one of them can be sent. */
  ghost predicate TableAccepted(fields: seq<Field>, n: nat, handles: Handles)
    requires AllKnown(fields, handles)
  {
    1 <= |Named(fields)| <= n && forall f :: f in Named(fields) ==> Accepted(f, handles)
  }

  function EntryOf(f: Field, handles: Handles): Entry
    requires Known(f.value, handles) && Accepted(f, handles)
  {
    Entry(f.key.value, ItemOf(f.value, handles).value)
  }

  /** The entries that go on the wire. */
  function EntriesOf(named: seq<Field>, handles: Handles): (r: seq<Entry>)
    requires forall f :: f in named ==> Known(f.value, handles) && Accepted(f, handles)
    ensures |r| == |named| && forall i :: 0 <= i < |r| ==> r[i] == EntryOf(named[i], handles)
  {
    seq(|named|, i requires 0 <= i < |named| => EntryOf(named[i], handles))
  }

  lemma EntriesSpelled(named: seq<Field>, handles: Handles)
    requires forall f :: f in named ==> Known(f.value, handles) && Accepted(f, handles)
    ensures Spelled(EntriesOf(named, handles), named, handles)
  {
    forall i | 0 <= i < |named|
      ensures Carries(EntriesOf(named, handles)[i].item, named[i].value, handles)
    {
      assert named[i] in named;
      ItemByKind(named[i].value, handles);
    }
  }

  function AllLocks(named: seq<Field>): seq<Lock>
    decreases |named|
  {
    if named == [] then [] else AllLocks(named[..|named| - 1]) + LocksOf(named[|named| - 1].value)
  }

  // ---------------------------------------------------------------- moving descriptors out, and back

  ghost predicate LocksKnown(locks: seq<Lock>, handles: Handles) {
    forall i :: 0 <= i < |locks| && locks[i].reference.Some? ==> locks[i].reference.value in handles
  }

  /** Each borrowed descriptor is taken out of its handle in turn. */
  function MoveOut(locks: seq<Lock>, handles: Handles): (r: (seq<Lock>, Handles))
    requires LocksKnown(locks, handles)
    ensures |r.0| == |locks| && r.1.Keys == handles.Keys
    ensures forall i :: 0 <= i < |locks| ==> r.0[i].reference == locks[i].reference
    decreases |locks|
  {
    if locks == [] then ([], handles)
    else
      var (moved, left) := MoveOut(locks[..|locks| - 1], handles);
      var l := locks[|locks| - 1];
      if l.reference.None? then (moved + [l], left)
      else (moved + [l.(value := left[l.reference.value])], left[l.reference.value := -1])
  }

  /** When the message is gone, sent or not, each borrowed descriptor is put back in turn. */
  function GiveBack(locks: seq<Lock>, handles: Handles): Handles
    decreases |locks|
  {
    if locks == [] then handles
    else
      var l := locks[|locks| - 1];
      var back := GiveBack(locks[..|locks| - 1], handles);
      if l.reference.None? then back else back[l.reference.value := l.value]
  }

  function Values(locks: seq<Lock>): (r: seq<Fd>)
    ensures |r| == |locks| && forall i :: 0 <= i < |r| ==> r[i] == locks[i].value
  {
    seq(|locks|, i requires 0 <= i < |locks| => locks[i].value)
  }

  /** The descriptors that the message owns. */
  function OwnedBy(locks: seq<Lock>): multiset<Fd>
    decreases |locks|
  {
    if locks == [] then multiset{}
    else
      var l := locks[|locks| - 1];
      OwnedBy(locks[..|locks| - 1]) + if l.reference.None? then multiset{l.value} else multiset{}
  }

  ghost predicate Refers(locks: seq<Lock>, i: nat, h: Handle) {
    i < |locks| && locks[i].reference == Some(h)
  }

  /** No handle is listed twice. */
  ghost predicate NoneTwice(locks: seq<Lock>) {
    forall i: nat, j: nat, h {:trigger Refers(locks, i, h), Refers(locks, j, h)} ::
      Refers(locks, i, h) && Refers(locks, j, h) ==> i == j
  }

  /** The first lock on a handle gets its descriptor, later ones get nothing. */
  lemma {:induction false} MovedValue(locks: seq<Lock>, handles: Handles, i: nat, h: Handle)
    requires LocksKnown(locks, handles) && Refers(locks, i, h)
    ensures MoveOut(locks, handles).0[i].value
            == if exists j: nat :: j < i && Refers(locks, j, h) then -1 else handles[h]
    decreases |locks|
  {
    var front := locks[..|locks| - 1];
    if i < |front| {
      assert Refers(front, i, h);
      MovedValue(front, handles, i, h);
      assert forall j: nat :: j < i ==> (Refers(locks, j, h) <==> Refers(front, j, h));
    } else {
      LeftInHandle(front, handles, h);
      assert forall j: nat :: j < i ==> (Refers(locks, j, h) <==> Refers(front, j, h));
      assert forall j: nat :: Refers(front, j, h) ==> j < i;
    }
  }

  lemma {:induction false} LeftInHandle(locks: seq<Lock>, handles: Handles, h: Handle)
    requires LocksKnown(locks, handles) && h in handles
    ensures MoveOut(locks, handles).1[h] == if exists j: nat :: Refers(locks, j, h) then -1 else handles[h]
    decreases |locks|
  {
    if locks != [] {
      var front := locks[..|locks| - 1];
      LeftInHandle(front, handles, h);
      assert forall j: nat :: j < |front| ==> (Refers(locks, j, h) <==> Refers(front, j, h));
      assert Refers(locks, |front|, h) <==> locks[|front|].reference == Some(h);
      if j: nat :| Refers(front, j, h) {
        assert Refers(locks, j, h);
      }
    }
  }

  /** What ends up in a handle is what the last lock on it held. */
  lemma {:induction false} GivenBack(locks: seq<Lock>, handles: Handles, h: Handle) returns (k: nat)
    ensures (forall j: nat :: !Refers(locks, j, h)) ==>
              (h in GiveBack(locks, handles) <==> h in handles)
              && (h in handles ==> GiveBack(locks, handles)[h] == handles[h])
    ensures (exists j: nat :: Refers(locks, j, h)) ==>
              Refers(locks, k, h) && (forall j: nat :: Refers(locks, j, h) ==> j <= k)
              && h in GiveBack(locks, handles) && GiveBack(locks, handles)[h] == locks[k].value
    decreases |locks|
  {
    k := 0;
    if locks != [] {
      var front := locks[..|locks| - 1];
      k := GivenBack(front, handles, h);
      assert forall j: nat :: j < |front| ==> (Refers(locks, j, h) <==> Refers(front, j, h));
      assert Refers(locks, |front|, h) <==> locks[|front|].reference == Some(h);
      if locks[|front|].reference == Some(h) {
        k := |front|;
      }
    }
  }

  /** Every borrowed descriptor is there to be borrowed: send has refused the others. */
  ghost predicate Lendable(locks: seq<Lock>, handles: Handles) {
    LocksKnown(locks, handles) && forall i: nat, h {:trigger Refers(locks, i, h)} :: Refers(locks, i, h) ==> handles[h] != -1
  }

  /** What a lock is to send. */
  function Wanted(l: Lock, handles: Handles): Fd
    requires l.reference.Some? ==> l.reference.value in handles
  {
    if l.reference.Some? then handles[l.reference.value] else l.value
  }

  lemma {:induction false} OwnValueKept(locks: seq<Lock>, handles: Handles, i: nat)
    requires LocksKnown(locks, handles) && i < |locks| && locks[i].reference.None?
    ensures MoveOut(locks, handles).0[i] == locks[i]
    decreases |locks|
  {
    if i < |locks| - 1 {
      OwnValueKept(locks[..|locks| - 1], handles, i);
    }
  }

  /** Every lock sends the descriptor it stands for exactly if no handle is listed twice. */
  lemma SentAsWantedIff(locks: seq<Lock>, handles: Handles)
    requires Lendable(locks, handles)
    ensures (forall i :: 0 <= i < |locks| ==> MoveOut(locks, handles).0[i].value == Wanted(locks[i], handles))
       <==> NoneTwice(locks)
  {
    forall i | 0 <= i < |locks|
      ensures locks[i].reference.None? ==> MoveOut(locks, handles).0[i].value == Wanted(locks[i], handles)
      ensures locks[i].reference.Some? ==>
                (MoveOut(locks, handles).0[i].value == Wanted(locks[i], handles)
                 <==> !exists j: nat :: j < i && Refers(locks, j, locks[i].reference.value))
    {
      if locks[i].reference.None? {
        OwnValueKept(locks, handles, i);
      } else {
        assert Refers(locks, i, locks[i].reference.value);
        MovedValue(locks, handles, i, locks[i].reference.value);
      }
    }
    if NoneTwice(locks) {
      forall i | 0 <= i < |locks| && locks[i].reference.Some?
        ensures !exists j: nat :: j < i && Refers(locks, j, locks[i].reference.value)
      {
        assert Refers(locks, i, locks[i].reference.value);
      }
    } else {
      var i: nat, j: nat, h: Handle :| Refers(locks, i, h) && Refers(locks, j, h) && i != j;
      var later: nat, earlier: nat := if i < j then j else i, if i < j then i else j;
      assert Refers(locks, earlier, h) && locks[later].reference == Some(h);
    }
  }

  lemma SameReferences(locks: seq<Lock>, handles: Handles, h: Handle)
    requires LocksKnown(locks, handles)
    ensures forall j: nat :: Refers(MoveOut(locks, handles).0, j, h) <==> Refers(locks, j, h)
  {}

  /** What a handle holds when the message is gone. */
  lemma HandleAfter(locks: seq<Lock>, handles: Handles, h: Handle)
    requires Lendable(locks, handles) && h in handles
    ensures var (moved, left) := MoveOut(locks, handles);
            && h in GiveBack(moved, left)
            && (GiveBack(moved, left)[h] == handles[h] <==>
                  forall i: nat, j: nat :: Refers(locks, i, h) && Refers(locks, j, h) ==> i == j)
  {
    var (moved, left) := MoveOut(locks, handles);
    SameReferences(locks, handles, h);
    LeftInHandle(locks, handles, h);
    var k := GivenBack(moved, left, h);
    if j: nat :| Refers(locks, j, h) {
      assert Refers(moved, j, h);
      assert Refers(moved, k, h);
      MovedValue(locks, handles, k, h);
    }
  }

  /**
    When a message is gone, sent or not, the handles are as they were exactly if none was listed twice:
    otherwise the descriptor of one that was is lost.
   */
  lemma HandlesComeBackIff(locks: seq<Lock>, handles: Handles)
    requires Lendable(locks, handles)
    ensures var (moved, left) := MoveOut(locks, handles);
            GiveBack(moved, left) == handles <==> NoneTwice(locks)
  {
    var (moved, left) := MoveOut(locks, handles);
    forall h
      ensures h in GiveBack(moved, left) <==> h in handles
    {
      SameReferences(locks, handles, h);
      var k := GivenBack(moved, left, h);
      assert Refers(moved, k, h) ==> Refers(locks, k, h);
    }
    forall h | h in handles
      ensures GiveBack(moved, left)[h] == handles[h] <==>
                forall i: nat, j: nat :: Refers(locks, i, h) && Refers(locks, j, h) ==> i == j
    {
      HandleAfter(locks, handles, h);
    }
    assert forall i: nat, h :: Refers(locks, i, h) ==> h in handles;
  }

  /** Twice the same handle: the second goes out as no descriptor, and none comes back. */
  lemma ListedTwiceIsLost()
    ensures var (moved, left) := MoveOut([Lock(Some(0), -1), Lock(Some(0), -1)], map[0 := 7]);
            Values(moved) == [7, -1] && left == map[0 := -1] && GiveBack(moved, left) == map[0 := -1]
  {
    var a := Lock(Some(0), -1);
    var two, h := [a, a], map[0 := 7];
    assert two[..1] == [a] && [a][..0] == [];
    assert [] + [Lock(Some(0), 7)] == [Lock(Some(0), 7)] && h[0 := -1] == map[0 := -1];
    assert MoveOut([a], h) == ([Lock(Some(0), 7)], map[0 := -1]);
    var moved := MoveOut(two, h).0;
    assert moved == [Lock(Some(0), 7), a];
    assert moved[..1] == [Lock(Some(0), 7)] && moved[..1][..0] == [];
  }

  // ---------------------------------------------------------------- the refusals

  /** The error of the first pair that cannot be sent. */
  function Refusal(fields: seq<Field>, n: nat, handles: Handles): Option<Errc>
    requires AllKnown(fields, handles)
    decreases |fields|
  {
    if fields == [] then None
    else
      var front, last := fields[..|fields| - 1], fields[|fields| - 1];
      var before := Refusal(front, n, handles);
      if before.Some? || last.key.None? then before
      else if |Named(front)| == n || |last.key.value| > 255 then Some(EINVAL)
      else if ItemOf(last.value, handles).Err? then Some(ItemOf(last.value, handles).error)
      else None
  }

  lemma {:induction false} RefusedIff(fields: seq<Field>, n: nat, handles: Handles)
    requires AllKnown(fields, handles)
    ensures Refusal(fields, n, handles).None? <==>
              |Named(fields)| <= n && forall f :: f in Named(fields) ==> Accepted(f, handles)
    decreases |fields|
  {
    if fields != [] {
      var front, last := fields[..|fields| - 1], fields[|fields| - 1];
      RefusedIff(front, n, handles);
      assert last.key.Some? ==> forall f :: f in Named(fields) <==> f in Named(front) || f == last;
    }
  }

  /** What is wrong with a pair when `taken` others came before it. */
  ghost predicate FieldFault(f: Field, taken: nat, n: nat, handles: Handles, e: Errc) {
    && f.key.Some?
    && if taken == n || |f.key.value| > 255 then e == EINVAL else Faulty(f.value, handles, e)
  }

  ghost predicate FaultAt(fields: seq<Field>, k: nat, n: nat, handles: Handles, e: Errc) {
    k < |fields| && FieldFault(fields[k], |Named(fields[..k])|, n, handles, e)
  }

  /** The first pair at fault is the `k`-th. */
  ghost predicate FirstFault(fields: seq<Field>, k: nat, n: nat, handles: Handles, e: Errc) {
    FaultAt(fields, k, n, handles, e) && forall j: nat, e' :: j < k ==> !FaultAt(fields, j, n, handles, e')
  }

  ghost predicate Faultless(fields: seq<Field>, n: nat, handles: Handles) {
    forall j: nat, e :: !FaultAt(fields, j, n, handles, e)
  }

  lemma FaultAtPrefix(fields: seq<Field>, m: nat, k: nat, n: nat, handles: Handles, e: Errc)
    requires m <= |fields|
    ensures FaultAt(fields[..m], k, n, handles, e) <==> k < m && FaultAt(fields, k, n, handles, e)
  {
    if k < m {
      assert fields[..m][..k] == fields[..k];
    }
  }

  /** The refusals of the loop are the faults of the pairs. */
  lemma {:induction false} RefusalIsFault(fields: seq<Field>, n: nat, handles: Handles) returns (k: nat)
    requires AllKnown(fields, handles)
    ensures Refusal(fields, n, handles).None? ==> Faultless(fields, n, handles)
    ensures Refusal(fields, n, handles).Some? ==> FirstFault(fields, k, n, handles, Refusal(fields, n, handles).value)
    decreases |fields|
  {
    k := 0;
    if fields != [] {
      var m := |fields| - 1;
      var front, last := fields[..m], fields[m];
      k := RefusalIsFault(front, n, handles);
      forall j: nat, e
        ensures FaultAt(front, j, n, handles, e) <==> j < m && FaultAt(fields, j, n, handles, e)
      {
        FaultAtPrefix(fields, m, j, n, handles, e);
      }
      if Refusal(front, n, handles).None? {
        k := m;
        ItemByKind(last.value, handles);
      }
    }
  }

  /** The loop stops at the first pair at fault. */
  lemma StoppedAtFault(fields: seq<Field>, n: nat, handles: Handles, k: nat)
    requires AllKnown(fields, handles) && k < |fields|
    requires Refusal(fields[..k], n, handles).None? && Refusal(fields[..k + 1], n, handles).Some?
    ensures FirstFault(fields, k, n, handles, Refusal(fields[..k + 1], n, handles).value)
    ensures !Faultless(fields, n, handles)
  {
    var j := RefusalIsFault(fields[..k], n, handles);
    var i := RefusalIsFault(fields[..k + 1], n, handles);
    var e := Refusal(fields[..k + 1], n, handles).value;
    forall j: nat, e'
      ensures FaultAt(fields[..k], j, n, handles, e') <==> j < k && FaultAt(fields, j, n, handles, e')
      ensures FaultAt(fields[..k + 1], j, n, handles, e') <==> j < k + 1 && FaultAt(fields, j, n, handles, e')
    {
      FaultAtPrefix(fields, k, j, n, handles, e');
      FaultAtPrefix(fields, k + 1, j, n, handles, e');
    }
    assert FaultAt(fields, i, n, handles, e);
  }

  /** The descriptors of the addresses among pairs: those that the message owns. */
  function AddressFds(named: seq<Field>): multiset<Fd>
    decreases |named|
  {
    if named == [] then multiset{}
    else
      var last := named[|named| - 1].value;
      AddressFds(named[..|named| - 1]) + if last.LuaAddress? then multiset{last.fd} else multiset{}
  }

  lemma {:induction false} OwnedByAppend(a: seq<Lock>, b: seq<Lock>)
    ensures OwnedBy(a + b) == OwnedBy(a) + OwnedBy(b)
    decreases |b|
  {
    if b == [] {
      assert a + b == a;
    } else {
      OwnedByAppend(a, b[..|b| - 1]);
      assert (a + b)[..|a + b| - 1] == a + b[..|b| - 1];
    }
  }

  lemma {:induction false} OwnsAddresses(named: seq<Field>)
    ensures OwnedBy(AllLocks(named)) == AddressFds(named)
    decreases |named|
  {
    if named != [] {
      OwnsAddresses(named[..|named| - 1]);
      OwnedByAppend(AllLocks(named[..|named| - 1]), LocksOf(named[|named| - 1].value));
      OwnsAddress(named[|named| - 1].value);
    }
  }

  lemma OwnsAddress(v: LuaValue)
    ensures OwnedBy(LocksOf(v)) == if v.LuaAddress? then multiset{v.fd} else multiset{}
  {
    if LocksOf(v) != [] {
      assert LocksOf(v)[..0] == [];
    }
  }

  /** No handle is the value of two pairs. */
  ghost predicate NoHandleTwice(named: seq<Field>) {
    forall i, j :: 0 <= i < j < |named| && named[i].value.LuaHandle? ==> named[i].value != named[j].value
  }

  lemma {:induction false} ReferredBy(named: seq<Field>, h: Handle)
    ensures (exists i: nat :: Refers(AllLocks(named), i, h)) <==> exists f :: f in named && f.value == LuaHandle(h)
    decreases |named|
  {
    if named != [] {
      var front, last := named[..|named| - 1], named[|named| - 1];
      ReferredBy(front, h);
      assert named == front + [last];
      var locks, one := AllLocks(front), LocksOf(last.value);
      assert AllLocks(named) == locks + one;
      forall i: nat
        ensures Refers(AllLocks(named), i, h) <==> Refers(locks, i, h) || (i == |locks| && last.value == LuaHandle(h))
      {}
      if last.value == LuaHandle(h) {
        assert Refers(AllLocks(named), |locks|, h);
        assert named[|named| - 1] in named;
      } else {
        assert forall f: Field :: f.value == LuaHandle(h) ==> (f in named <==> f in front);
      }
    }
  }

  lemma {:induction false} TwiceIff(named: seq<Field>)
    ensures NoneTwice(AllLocks(named)) <==> NoHandleTwice(named)
    decreases |named|
  {
    if named != [] {
      var front, last := named[..|named| - 1], named[|named| - 1];
      var locks, one := AllLocks(front), LocksOf(last.value);
      TwiceIff(front);
      forall i: nat, h
        ensures Refers(locks + one, i, h) <==> Refers(locks, i, h) || (i == |locks| && last.value == LuaHandle(h))
      {}
      if last.value.LuaHandle? {
        var h := last.value.handle;
        ReferredBy(front, h);
        LastTwice(locks, one, h);
        assert (exists f :: f in front && f.value == last.value) <==> exists i :: 0 <= i < |front| && named[i].value == last.value;
      } else {
        assert forall i: nat, h :: Refers(locks + one, i, h) <==> Refers(locks, i, h);
      }
    }
  }

  lemma LastTwice(locks: seq<Lock>, one: seq<Lock>, h: Handle)
    requires one == [Lock(Some(h), -1)]
    ensures NoneTwice(locks + one) <==> NoneTwice(locks) && !exists i: nat :: Refers(locks, i, h)
  {
    assert Refers(locks + one, |locks|, h);
    forall i: nat, g
      ensures Refers(locks + one, i, g) <==> Refers(locks, i, g) || (i == |locks| && g == h)
    {}
  }

  lemma {:induction false} RefusalStays(fields: seq<Field>, n: nat, handles: Handles, k: nat)
    requires AllKnown(fields, handles) && k <= |fields| && Refusal(fields[..k], n, handles).Some?
    ensures Refusal(fields, n, handles) == Refusal(fields[..k], n, handles)
    decreases |fields|
  {
    if k == |fields| {
      assert fields[..k] == fields;
    } else {
      var front := fields[..|fields| - 1];
      assert front[..k] == fields[..k];
      RefusalStays(front, n, handles, k);
    }
  }

  // ---------------------------------------------------------------- the operation

  lemma {:induction false} LocksSend(named: seq<Field>, handles: Handles)
    requires forall f :: f in named ==> Known(f.value, handles) && Accepted(f, handles)
    ensures Lendable(AllLocks(named), handles)
    ensures |AllLocks(named)| == |AllFds(EntriesOf(named, handles))|
    ensures forall i :: 0 <= i < |AllLocks(named)| ==>
              AllFds(EntriesOf(named, handles))[i] == Wanted(AllLocks(named)[i], handles)
    decreases |named|
  {
    if named != [] {
      var front, last := named[..|named| - 1], named[|named| - 1];
      LocksSend(front, handles);
      assert EntriesOf(named, handles) == EntriesOf(front, handles) + [EntryOf(last, handles)];
      FdsAppend(EntriesOf(front, handles), EntryOf(last, handles));
      LocksAppend(AllLocks(front), LocksOf(last.value), handles);
      OneLockWanted(last.value, handles);
    }
  }

  lemma OneLockWanted(v: LuaValue, handles: Handles)
    requires Known(v, handles) && ItemOf(v, handles).Ok?
    ensures Lendable(LocksOf(v), handles)
    ensures |LocksOf(v)| == |Fds(ItemOf(v, handles).value)|
    ensures forall i :: 0 <= i < |LocksOf(v)| ==> Fds(ItemOf(v, handles).value)[i] == Wanted(LocksOf(v)[i], handles)
  {}

  lemma LocksAppend(a: seq<Lock>, b: seq<Lock>, handles: Handles)
    requires Lendable(a, handles) && Lendable(b, handles)
    ensures Lendable(a + b, handles)
  {
    forall i: nat, h | Refers(a + b, i, h)
      ensures h in handles && handles[h] != -1
    {
      assert i < |a| ==> Refers(a, i, h);
      assert i >= |a| ==> Refers(b, i - |a|, h);
    }
    forall i | 0 <= i < |a + b| && (a + b)[i].reference.Some?
      ensures (a + b)[i].reference.value in handles
    {
      assert Refers(a + b, i, (a + b)[i].reference.value);
    }
  }

  /** What goes along with the message are the descriptors of its entries exactly if no handle is listed twice. */
  lemma DescriptorsSentIff(named: seq<Field>, handles: Handles)
    requires forall f :: f in named ==> Known(f.value, handles) && Accepted(f, handles)
    ensures Lendable(AllLocks(named), handles)
    ensures Values(MoveOut(AllLocks(named), handles).0) == AllFds(EntriesOf(named, handles)) <==> NoneTwice(AllLocks(named))
  {
    LocksSend(named, handles);
    SentAsWantedIff(AllLocks(named), handles);
    var sent, wanted := Values(MoveOut(AllLocks(named), handles).0), AllFds(EntriesOf(named, handles));
    assert sent == wanted ==> forall i :: 0 <= i < |sent| ==> sent[i] == wanted[i];
  }

  lemma EntriesSendable(named: seq<Field>, handles: Handles)
    requires forall f :: f in named ==> Known(f.value, handles) && Accepted(f, handles)
    ensures forall e :: e in EntriesOf(named, handles) ==> SendableEntry(e)
  {
    forall e | e in EntriesOf(named, handles)
      ensures SendableEntry(e)
    {
      var i :| 0 <= i < |named| && EntriesOf(named, handles)[i] == e;
      assert named[i] in named;
    }
  }

  /** Each borrowed descriptor leaves its handle. */
  method Borrow(locks: seq<Lock>, handles: Handles) returns (moved: seq<Lock>, left: Handles)
    requires LocksKnown(locks, handles)
    ensures (moved, left) == MoveOut(locks, handles)
  {
    moved, left := [], handles;
    var i := 0;
    while i < |locks|
      invariant i <= |locks| && (moved, left) == MoveOut(locks[..i], handles)
    {
      assert locks[..i + 1][..i] == locks[..i];
      if locks[i].reference.None? {
        moved := moved + [locks[i]];
      } else {
        var h := locks[i].reference.value;
        moved, left := moved + [locks[i].(value := left[h])], left[h := -1];
      }
      i := i + 1;
    }
    assert locks[..i] == locks;
  }

  /** When the message is gone: borrowed descriptors go back, those that it owned are closed. */
  method Return(locks: seq<Lock>, handles: Handles) returns (back: Handles, closed: multiset<Fd>)
    ensures back == GiveBack(locks, handles) && closed == OwnedBy(locks)
  {
    back, closed := handles, multiset{};
    var i := 0;
    while i < |locks|
      invariant i <= |locks| && back == GiveBack(locks[..i], handles) && closed == OwnedBy(locks[..i])
    {
      assert locks[..i + 1][..i] == locks[..i];
      if locks[i].reference.Some? {
        back := back[locks[i].reference.value := locks[i].value];
      } else {
        closed := closed + multiset{locks[i].value};
      }
      i := i + 1;
    }
    assert locks[..i] == locks;
  }

  /** The members, strings and locks of pairs that can be sent. */
  ghost predicate Prepared(named: seq<Field>, handles: Handles, members: seq<bv64>, strings: Bytes, locks: seq<Lock>) {
    && (forall f :: f in named ==> Known(f.value, handles) && Accepted(f, handles))
    && (forall e :: e in EntriesOf(named, handles) ==> SendableEntry(e))
    && members == AllMembers(EntriesOf(named, handles))
    && strings == AllStrings(EntriesOf(named, handles))
    && locks == AllLocks(named)
  }

  lemma OneMorePrepared(named: seq<Field>, handles: Handles, members: seq<bv64>, strings: Bytes, locks: seq<Lock>,
                        f: Field, item: Item,
                        named': seq<Field>, members': seq<bv64>, strings': Bytes, locks': seq<Lock>)
    requires Prepared(named, handles, members, strings, locks) && Known(f.value, handles) && Accepted(f, handles)
    requires ItemOf(f.value, handles) == Ok(item) && Sendable(item) && named' == named + [f]
    requires members' == members + [MemberOf(item)] && strings' == strings + (Sized(f.key.value) + Strings(item))
    requires locks' == locks + LocksOf(f.value)
    ensures Prepared(named', handles, members', strings', locks')
  {
    var e, entries := EntryOf(f, handles), EntriesOf(named, handles);
    assert forall x :: x in named' <==> x in named || x == f;
    EntriesSendable(named', handles);
    assert EntriesOf(named', handles) == entries + [e];
    assert e in EntriesOf(named', handles);
    MembersAppend(entries, e);
    StringsAppend(entries, e);
    assert named'[..|named|] == named;
  }

  lemma NextField(fields: seq<Field>, i: nat)
    requires i < |fields|
    ensures fields[..i + 1] == fields[..i] + [fields[i]]
    ensures Named(fields[..i + 1]) == Named(fields[..i]) + if fields[i].key.None? then [] else [fields[i]]
  {
    assert fields[..i + 1][..i] == fields[..i];
  }

  lemma NextRefusal(fields: seq<Field>, n: nat, handles: Handles, i: nat)
    requires AllKnown(fields, handles) && i < |fields| && Refusal(fields[..i], n, handles).None?
    ensures Refusal(fields[..i + 1], n, handles) ==
              if fields[i].key.None? then None
              else if |Named(fields[..i])| == n || |fields[i].key.value| > 255 then Some(EINVAL)
              else if ItemOf(fields[i].value, handles).Err? then Some(ItemOf(fields[i].value, handles).error) else None
    ensures Refusal(fields[..i + 1], n, handles).Some? ==> Refusal(fields, n, handles) == Refusal(fields[..i + 1], n, handles)
  {
    assert fields[..i + 1][..i] == fields[..i];
    if Refusal(fields[..i + 1], n, handles).Some? {
      RefusalStays(fields, n, handles, i + 1);
    }
  }

  /** The loop before pair `i`: all before it can be sent, and have been prepared. */
  ghost predicate Underway(fields: seq<Field>, i: nat, n: nat, handles: Handles, nf: nat,
                           members: seq<bv64>, strings: Bytes, locks: seq<Lock>) {
    && AllKnown(fields, handles) && i <= |fields| && Refusal(fields[..i], n, handles).None?
    && nf == |Named(fields[..i])| && Prepared(Named(fields[..i]), handles, members, strings, locks)
  }

  lemma Skipped(fields: seq<Field>, i: nat, n: nat, handles: Handles, nf: nat,
                members: seq<bv64>, strings: Bytes, locks: seq<Lock>)
    requires Underway(fields, i, n, handles, nf, members, strings, locks) && i < |fields| && fields[i].key.None?
    ensures Underway(fields, i + 1, n, handles, nf, members, strings, locks)
  {
    NextField(fields, i);
    NextRefusal(fields, n, handles, i);
    assert Named(fields[..i + 1]) == Named(fields[..i]);
  }

  lemma Taken(fields: seq<Field>, i: nat, n: nat, handles: Handles, nf: nat,
              members: seq<bv64>, strings: Bytes, locks: seq<Lock>, item: Item,
              members': seq<bv64>, strings': Bytes, locks': seq<Lock>)
    requires Underway(fields, i, n, handles, nf, members, strings, locks) && i < |fields|
    requires Accepted(fields[i], handles) && ItemOf(fields[i].value, handles) == Ok(item) && nf != n && Sendable(item)
    requires members' == members + [MemberOf(item)] && locks' == locks + LocksOf(fields[i].value)
    requires strings' == strings + (Sized(fields[i].key.value) + Strings(item))
    ensures Underway(fields, i + 1, n, handles, nf + 1, members', strings', locks')
  {
    NextField(fields, i);
    NextRefusal(fields, n, handles, i);
    OneMorePrepared(Named(fields[..i]), handles, members, strings, locks, fields[i], item,
                    Named(fields[..i + 1]), members', strings', locks');
  }

  lemma ItemSendable(v: LuaValue, handles: Handles)
    requires Known(v, handles) && ItemOf(v, handles).Ok?
    ensures Sendable(ItemOf(v, handles).value)
  {}

  /** The loop over a table: writes member, strings and lock of each pair, up to the first that cannot be sent. */
  method PrepareTable(fields: seq<Field>, n: nat, handles: Handles)
    returns (e: Option<Errc>, members: seq<bv64>, strings: Bytes, locks: seq<Lock>, ghost k: nat)
    requires AllKnown(fields, handles)
    ensures e == Refusal(fields, n, handles)
    ensures if e.None? then Prepared(Named(fields), handles, members, strings, locks)
            else k < |fields| && Refusal(fields[..k], n, handles).None? && Refusal(fields[..k + 1], n, handles).Some?
                 && locks == AllLocks(Named(fields[..k]))
  {
    members, strings, locks, k := [], [], [], 0;
    var nf := 0;
    for i := 0 to |fields|
      invariant Underway(fields, i, n, handles, nf, members, strings, locks)
    {
      k := i;
      NextRefusal(fields, n, handles, i);
      if fields[i].key.None? {
        Skipped(fields, i, n, handles, nf, members, strings, locks);
        continue;
      }
      if nf == n || |fields[i].key.value| > 255 {
        return Some(EINVAL), members, strings, locks, k;
      }
      var item := ItemOf(fields[i].value, handles);
      if item.Err? {
        return Some(item.error), members, strings, locks, k;
      }
      ItemSendable(fields[i].value, handles);
      var members', locks' := members + [MemberOf(item.value)], locks + LocksOf(fields[i].value);
      var strings' := strings + (Sized(fields[i].key.value) + Strings(item.value));
      Taken(fields, i, n, handles, nf, members, strings, locks, item.value, members', strings', locks');
      members, strings, locks, nf := members', strings', locks', nf + 1;
    }
    assert fields[..|fields|] == fields;
    e, k := None, |fields|;
  }

  /** The message that goes out: the entries of the table, and the descriptors taken out of their handles. */
  ghost predicate Departs(named: seq<Field>, n: nat, handles: Handles, wire: Wire, locks: seq<Lock>, left: Handles) {
    && LocksKnown(AllLocks(named), handles) && (locks, left) == MoveOut(AllLocks(named), handles)
    && wire.fds == Values(locks)
    && exists entries :: Spelled(entries, named, handles) && SendableTable(entries, n) && wire.bytes == EncodeTable(entries, n).bytes
  }

  method Depart(ghost named: seq<Field>, n: nat, handles: Handles, members: seq<bv64>, strings: Bytes, prepared: seq<Lock>)
    returns (wire: Wire, locks: seq<Lock>, left: Handles)
    requires Prepared(named, handles, members, strings, prepared) && 1 <= |named| <= n
    ensures Departs(named, n, handles, wire, locks, left)
  {
    LocksSend(named, handles);
    locks, left := Borrow(prepared, handles);
    var nf := |members|;
    wire := Wire(AllBytes(members + Repeat(NIL_MEMBER, n - nf)) + strings, Values(locks));
    EntriesSpelled(named, handles);
    assert wire.bytes == EncodeTable(EntriesOf(named, handles), n).bytes;
  }

  /** The error of the first pair at fault, the `k`-th, or of a table that has nothing to send. */
  ghost predicate Refuses(fields: seq<Field>, hasMetatable: bool, n: nat, handles: Handles, error: Errc,
                          closed: multiset<Fd>, k: nat)
  {
    if hasMetatable || Faultless(fields, n, handles) then error == EINVAL && closed == multiset{}
    else FirstFault(fields, k, n, handles, error) && closed == AddressFds(Named(fields[..k]))
  }

  /**
    Sends a table, or refuses it. Then no handle has changed, and the descriptors that the message had come to
    own so far are closed.
   */
  method SendTable(fields: seq<Field>, hasMetatable: bool, n: nat, handles: Handles)
    returns (r: Result<Wire, Errc>, locks: seq<Lock>, left: Handles, closed: multiset<Fd>, ghost k: nat)
    requires n > 2 && AllKnown(fields, handles)
    ensures r.Ok? <==> !hasMetatable && Named(fields) != [] && Faultless(fields, n, handles)
    ensures r.Ok? ==> Departs(Named(fields), n, handles, r.value, locks, left) && closed == multiset{}
    ensures r.Err? ==> left == handles && Refuses(fields, hasMetatable, n, handles, r.error, closed, k)
  {
    RefusedIff(fields, n, handles);
    left, closed := handles, multiset{};
    if hasMetatable {
      return Err(EINVAL), [], left, closed, 0;
    }
    var e, members, strings;
    e, members, strings, locks, k := PrepareTable(fields, n, handles);
    if e.Some? {
      closed := CloseOwned(locks);
      StoppedAtFault(fields, n, handles, k);
      RefusalStays(fields, n, handles, k + 1);
      OwnsAddresses(Named(fields[..k]));
      return Err(e.value), locks, left, closed, k;
    }
    ghost var none := RefusalIsFault(fields, n, handles);
    if |members| == 0 {
      return Err(EINVAL), [], left, closed, 0;
    }
    var wire;
    wire, locks, left := Depart(Named(fields), n, handles, members, strings, locks);
    r := Ok(wire);
  }

  /** Scope exit when nothing was sent. */
  method CloseOwned(locks: seq<Lock>) returns (closed: multiset<Fd>)
    ensures closed == OwnedBy(locks)
  {
    closed := multiset{};
    var i := 0;
    while i < |locks|
      invariant i <= |locks| && closed == OwnedBy(locks[..i])
    {
      assert locks[..i + 1][..i] == locks[..i];
      if locks[i].reference.None? {
        closed := closed + multiset{locks[i].value};
      }
      i := i + 1;
    }
    assert locks[..i] == locks;
  }

  lemma OneLockMoved(l: Lock, handles: Handles)
    requires l.reference.Some? ==> l.reference.value in handles
    ensures MoveOut([l], handles) == if l.reference.None? then ([l], handles)
              else ([l.(value := handles[l.reference.value])], handles[l.reference.value := -1])
  {
    assert [l][..0] == [];
    assert MoveOut([], handles) == ([], handles);
    if l.reference.None? {
      assert [] + [l] == [l];
    } else {
      var moved := l.(value := handles[l.reference.value]);
      assert [] + [moved] == [moved];
    }
  }

  lemma OneLockBack(l: Lock, handles: Handles)
    ensures GiveBack([l], handles) == if l.reference.None? then handles else handles[l.reference.value := l.value]
  {
    assert [l][..0] == [];
    assert GiveBack([], handles) == handles;
  }

  lemma OneLock(v: LuaValue, handles: Handles)
    requires Known(v, handles) && ItemOf(v, handles).Ok?
    ensures var (moved, left) := MoveOut(LocksOf(v), handles);
            Values(moved) == Fds(ItemOf(v, handles).value) && GiveBack(moved, left) == handles
  {
    if LocksOf(v) == [] {
      assert Values([]) == [];
    } else {
      var l := LocksOf(v)[0];
      assert LocksOf(v) == [l];
      OneLockMoved(l, handles);
      var (moved, left) := MoveOut([l], handles);
      OneLockBack(moved[0], left);
      assert moved == [moved[0]] && Values(moved) == [moved[0].value];
      assert l.reference.Some? ==> left[l.reference.value := moved[0].value] == handles;
    }
  }

  /** Sends a single value. */
  method SendValue(v: LuaValue, n: nat, handles: Handles)
    returns (r: Result<Wire, Errc>, locks: seq<Lock>, left: Handles)
    requires n > 2 && Known(v, handles)
    ensures r.Err? ==> Faulty(v, handles, r.error) && left == handles
    ensures r.Ok? ==>
              && (forall e :: !Faulty(v, handles, e))
              && exists item :: Carries(item, v, handles) && Sendable(item) && r.value == EncodeFlat(item, n)
    ensures GiveBack(locks, left) == handles
  {
    ItemByKind(v, handles);
    locks, left := [], handles;
    var item := ItemOf(v, handles);
    if item.Err? {
      return Err(item.error), locks, left;
    }
    OneLock(v, handles);
    locks, left := Borrow(LocksOf(v), handles);
    r := Ok(Wire(EncodeFlat(item.value, n).bytes, Values(locks)));
    assert r.value == EncodeFlat(item.value, n);
  }

  lemma {:induction false} ParsedFds(words: seq<bv64>, buf: Bytes, nread: nat, off: nat, fds: seq<Fd>)
    requires nread <= |buf| && HasRoom(words, buf, off) && ParseFrom(words, buf, nread, off, fds).Some?
    ensures AllFds(ParseFrom(words, buf, nread, off, fds).value) <= fds
    decreases |words|
  {
    if words != [] && words[0] != NIL_MEMBER {
      var e := EntryAt(words[0], buf, nread, off, fds).value;
      var later := fds[|Fds(e.item)|..];
      ParsedFds(words[1..], buf, nread, off + Size(e), later);
      FdsFirst(e, ParseFrom(words[1..], buf, nread, off + Size(e), later).value, fds);
    }
  }

  lemma FdsFirst(e: Entry, rest: seq<Entry>, fds: seq<Fd>)
    requires Fds(e.item) <= fds && AllFds(rest) <= fds[|Fds(e.item)|..]
    ensures AllFds([e] + rest) <= fds
  {
    assert ([e] + rest)[0] == e && ([e] + rest)[1..] == rest;
    assert fds == Fds(e.item) + fds[|Fds(e.item)|..];
  }

  lemma ParsedTableFds(buf: Bytes, n: nat, nread: nat, fds: seq<Fd>, entries: seq<Entry>)
    requires IsBuffer(buf, n) && 16 <= nread <= |buf| && Parse(buf, n, nread, fds) == Some(Table(entries))
    ensures AllFds(entries) <= fds
  {
    ParsedFds(Members(buf, n), buf, nread, 8 * n, fds);
  }

  /**
    A table that was taken is read as entries with its keys, in its order, and items that carry its values, exactly
    if no handle is listed twice.
   */
  lemma TableArrivesIff(fields: seq<Field>, n: nat, handles: Handles, buf: Bytes, wire: Wire, locks: seq<Lock>, left: Handles)
    requires AllKnown(fields, handles) && Faultless(fields, n, handles)
    requires Departs(Named(fields), n, handles, wire, locks, left) && IsBuffer(buf, n) && wire.bytes <= buf
    ensures 16 <= |wire.bytes|
    ensures NoHandleTwice(Named(fields)) <==>
              exists entries :: Spelled(entries, Named(fields), handles) && Parse(buf, n, |wire.bytes|, wire.fds) == Some(Table(entries))
  {
    var named := Named(fields);
    var entries :| Spelled(entries, named, handles) && SendableTable(entries, n) && wire.bytes == EncodeTable(entries, n).bytes;
    FaultlessAccepted(fields, n, handles);
    SpelledOnce(entries, named, handles);
    DescriptorsSentIff(named, handles);
    LocksSend(named, handles);
    ArrivesWith(entries, n, buf, wire.fds);
    TwiceIff(named);
    if other :| Spelled(other, named, handles) && Parse(buf, n, |wire.bytes|, wire.fds) == Some(Table(other)) {
      SpelledOnce(other, named, handles);
    }
  }

  lemma FaultlessAccepted(fields: seq<Field>, n: nat, handles: Handles)
    requires AllKnown(fields, handles) && Faultless(fields, n, handles)
    ensures forall f :: f in Named(fields) ==> Known(f.value, handles) && Accepted(f, handles)
  {
    var k := RefusalIsFault(fields, n, handles);
    RefusedIff(fields, n, handles);
  }

  /** Only the one sequence of entries spells a table. */
  lemma SpelledOnce(entries: seq<Entry>, named: seq<Field>, handles: Handles)
    requires Spelled(entries, named, handles)
    requires forall f :: f in named ==> Known(f.value, handles) && Accepted(f, handles)
    ensures entries == EntriesOf(named, handles)
  {
    forall i | 0 <= i < |named|
      ensures entries[i] == EntriesOf(named, handles)[i]
    {
      assert named[i] in named;
      ItemByKind(named[i].value, handles);
    }
  }

  lemma ArrivesWith(entries: seq<Entry>, n: nat, buf: Bytes, fds: seq<Fd>)
    requires SendableTable(entries, n) && IsBuffer(buf, n) && EncodeTable(entries, n).bytes <= buf
    requires |fds| == |AllFds(entries)|
    ensures var nread := |EncodeTable(entries, n).bytes|;
            16 <= nread && (Parse(buf, n, nread, fds) == Some(Table(entries)) <==> fds == AllFds(entries))
  {
    TableRoundTrip(entries, n, buf);
    var nread := |EncodeTable(entries, n).bytes|;
    if Parse(buf, n, nread, fds) == Some(Table(entries)) {
      ParsedTableFds(buf, n, nread, fds, entries);
    }
  }
}
