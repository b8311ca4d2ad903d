/**
  The wire format of messages between actors in different processes: N members
  of 64 bits, then a buffer of strings. A member is a double, or a signalling NaN
  whose mantissa tags the kind of the value; the value itself is then a string of
  the buffer or one of the descriptors passed along.

  `Parse` says what a received message holds, entry by entry.
 */
module IpcMessage {
  import opened Wrappers

  type Fd = int   // -1 stands for no descriptor
  type Bytes = seq<bv8>

  const EXPONENT_MASK: bv64 := 0x7FF0_0000_0000_0000
  const MANTISSA_MASK: bv64 := 0x000F_FFFF_FFFF_FFFF
  const QNAN_BIT: bv64 := 0x0008_0000_0000_0000

  const KIND_TRUE: bv64 := 1
  const KIND_FALSE: bv64 := 2
  const KIND_STRING: bv64 := 3
  const KIND_FILE_DESCRIPTOR: bv64 := 4
  const KIND_ACTOR_ADDRESS: bv64 := 5
  const KIND_NIL: bv64 := 6

  const NIL_MEMBER: bv64 := EXPONENT_MASK | KIND_NIL

  datatype Item =
    | Number(bits: bv64)
    | Boolean(value: bool)
    | Text(chars: Bytes)
    | Descriptor(fd: Fd)
    | Address(fd: Fd)

  datatype Entry = Entry(key: Bytes, item: Item)

  datatype Message = Flat(item: Item) | Table(entries: seq<Entry>)

  datatype Tag = NumberTag | BoolTag(value: bool) | TextTag | DescriptorTag | AddressTag | UnknownTag

  // ---------------------------------------------------------------- members

  predicate IsSnan(w: bv64) {
    w & EXPONENT_MASK == EXPONENT_MASK && w & MANTISSA_MASK != 0 && w & QNAN_BIT == 0
  }

  function TagOf(w: bv64): Tag {
    if !IsSnan(w) then NumberTag
    else
      var kind := w & MANTISSA_MASK;
      if kind == KIND_TRUE then BoolTag(true)
      else if kind == KIND_FALSE then BoolTag(false)
      else if kind == KIND_STRING then TextTag
      else if kind == KIND_FILE_DESCRIPTOR then DescriptorTag
      else if kind == KIND_ACTOR_ADDRESS then AddressTag
      else UnknownTag
  }

  /** A word from its bytes, least significant first. */
  function FromBytes(b: Bytes): bv64
    requires |b| == 8
  {
    b[0] as bv64 | (b[1] as bv64 << 8) | (b[2] as bv64 << 16) | (b[3] as bv64 << 24)
    | (b[4] as bv64 << 32) | (b[5] as bv64 << 40) | (b[6] as bv64 << 48) | (b[7] as bv64 << 56)
  }

  function Words(b: Bytes): (words: seq<bv64>)
    requires |b| % 8 == 0
    ensures |words| == |b| / 8
    decreases |b|
  {
    if b == [] then [] else [FromBytes(b[..8])] + Words(b[8..])
  }

  /** A received message: room for `n` members and for the strings of `n` entries. */
  predicate IsBuffer(buf: Bytes, n: nat) {
    n > 2 && |buf| == 8 * n + 512 * n
  }

  function Members(buf: Bytes, n: nat): (words: seq<bv64>)
    requires IsBuffer(buf, n)
    ensures |words| == n
  {
    Words(buf[..8 * n])
  }

  // ---------------------------------------------------------------- what a message holds

  /** The string at `off`: a size byte, then that many bytes, all of them received. */
  function StringAt(buf: Bytes, nread: nat, off: nat): Option<Bytes>
    requires off < |buf| && nread <= |buf|
  {
    var size := buf[off] as nat;
    if off + 1 + size <= nread then Some(buf[off + 1..off + 1 + size]) else None
  }

  /** The value of a member whose string, if any, is at `off`. */
  function ItemAt(w: bv64, buf: Bytes, nread: nat, off: nat, fds: seq<Fd>): Option<Item>
    requires off < |buf| && nread <= |buf|
  {
    match TagOf(w)
    case NumberTag => Some(Number(w))
    case BoolTag(b) => Some(Boolean(b))
    case TextTag =>
      var s := StringAt(buf, nread, off);
      if s.None? then None else Some(Text(s.value))
    case DescriptorTag => if fds == [] then None else Some(Descriptor(fds[0]))
    case AddressTag => if fds == [] then None else Some(Address(fds[0]))
    case UnknownTag => None
  }

  /** How much of the string buffer and of the descriptors an item uses. */
  function Extent(item: Item): nat {
    if item.Text? then 1 + |item.chars| else 0
  }

  predicate HoldsFd(item: Item) {
    item.Descriptor? || item.Address?
  }

  function Fds(item: Item): seq<Fd> {
    if HoldsFd(item) then [item.fd] else []
  }

  /** An entry whose key is at `off`. */
  function EntryAt(w: bv64, buf: Bytes, nread: nat, off: nat, fds: seq<Fd>): (r: Option<Entry>)
    requires nread <= |buf| && off + 512 <= |buf|
    ensures r.Some? ==> off + Size(r.value) <= nread && Size(r.value) <= 512 && Fds(r.value.item) <= fds
  {
    var key := StringAt(buf, nread, off);
    if key.None? then None
    else
      var item := ItemAt(w, buf, nread, off + 1 + |key.value|, fds);
      if item.None? then None else Some(Entry(key.value, item.value))
  }

  /** How much of the string buffer an entry takes. */
  function Size(e: Entry): nat {
    1 + |e.key| + Extent(e.item)
  }

  /** Whether every entry still to come has room for its strings from `off` on. */
  predicate HasRoom(words: seq<bv64>, buf: Bytes, off: nat) {
    off + 512 * |words| <= |buf|
  }

  /** The entries of a table whose members are `words` and whose strings start at `off`. */
  function ParseFrom(words: seq<bv64>, buf: Bytes, nread: nat, off: nat, fds: seq<Fd>): Option<seq<Entry>>
    requires nread <= |buf| && HasRoom(words, buf, off)
    decreases |words|
  {
    if words == [] || words[0] == NIL_MEMBER then Some([])
    else
      var e := EntryAt(words[0], buf, nread, off, fds);
      if e.None? then None
      else
        var rest := ParseFrom(words[1..], buf, nread, off + Size(e.value), fds[|Fds(e.value.item)|..]);
        if rest.None? then None else Some([e.value] + rest.value)
  }

  lemma ParseNext(words: seq<bv64>, buf: Bytes, nread: nat, off: nat, fds: seq<Fd>, e: Entry, rest: seq<Entry>)
    requires nread <= |buf| && HasRoom(words, buf, off) && words != [] && words[0] != NIL_MEMBER
    requires EntryAt(words[0], buf, nread, off, fds) == Some(e)
    requires ParseFrom(words[1..], buf, nread, off + Size(e), fds[|Fds(e.item)|..]) == Some(rest)
    ensures ParseFrom(words, buf, nread, off, fds) == Some([e] + rest)
  {}

  /** A message that is one value: a string comes first in its buffer, a descriptor comes alone. */
  function ParseFlat(w: bv64, buf: Bytes, nread: nat, off: nat, fds: seq<Fd>): Option<Item>
    requires off < |buf| && nread <= |buf|
  {
    if TagOf(w) in {DescriptorTag, AddressTag} && |fds| != 1 then None
    else ItemAt(w, buf, nread, off, fds)
  }

  function Parse(buf: Bytes, n: nat, nread: nat, fds: seq<Fd>): Option<Message>
    requires IsBuffer(buf, n) && 16 <= nread <= |buf|
  {
    var words := Members(buf, n);
    if words[0] == NIL_MEMBER then
      var item := ParseFlat(words[1], buf, nread, 8 * n, fds);
      if item.None? then None else Some(Flat(item.value))
    else if nread < 8 * n then None
    else
      var entries := ParseFrom(words, buf, nread, 8 * n, fds);
      if entries.None? then None else Some(Table(entries.value))
  }

  // ---------------------------------------------------------------- only the received prefix matters

  lemma PartOfPrefix(a: Bytes, nread: nat, i: nat, j: nat)
    requires i <= j <= nread <= |a|
    ensures a[..nread][i..j] == a[i..j]
  {}

  lemma SamePrefixString(a: Bytes, b: Bytes, nread: nat, off: nat)
    requires |a| == |b| && nread <= |a| && a[..nread] == b[..nread] && off < |a|
    ensures StringAt(a, nread, off) == StringAt(b, nread, off)
  {
    if off < nread {
      assert a[..nread][off] == b[..nread][off];
      var end := off + 1 + a[off] as nat;
      if end <= nread {
        PartOfPrefix(a, nread, off + 1, end);
        PartOfPrefix(b, nread, off + 1, end);
      }
    }
  }

  lemma SamePrefixItem(w: bv64, a: Bytes, b: Bytes, nread: nat, off: nat, fds: seq<Fd>)
    requires |a| == |b| && nread <= |a| && a[..nread] == b[..nread] && off < |a|
    ensures ItemAt(w, a, nread, off, fds) == ItemAt(w, b, nread, off, fds)
  {
    SamePrefixString(a, b, nread, off);
  }

  lemma SamePrefixEntry(w: bv64, a: Bytes, b: Bytes, nread: nat, off: nat, fds: seq<Fd>)
    requires |a| == |b| && nread <= |a| && a[..nread] == b[..nread] && off + 512 <= |a|
    ensures EntryAt(w, a, nread, off, fds) == EntryAt(w, b, nread, off, fds)
  {
    SamePrefixString(a, b, nread, off);
    var key := StringAt(a, nread, off);
    if key.Some? {
      SamePrefixItem(w, a, b, nread, off + 1 + |key.value|, fds);
    }
  }

  lemma {:induction false} SamePrefixEntries(words: seq<bv64>, a: Bytes, b: Bytes, nread: nat, off: nat, fds: seq<Fd>)
    requires |a| == |b| && nread <= |a| && a[..nread] == b[..nread] && HasRoom(words, a, off)
    ensures ParseFrom(words, a, nread, off, fds) == ParseFrom(words, b, nread, off, fds)
    decreases |words|
  {
    if words != [] && words[0] != NIL_MEMBER {
      SamePrefixEntry(words[0], a, b, nread, off, fds);
      var e := EntryAt(words[0], a, nread, off, fds);
      if e.Some? {
        SamePrefixEntries(words[1..], a, b, nread, off + Size(e.value), fds[|Fds(e.value.item)|..]);
      }
    }
  }

  lemma FirstWords(buf: Bytes, n: nat)
    requires IsBuffer(buf, n)
    ensures Members(buf, n)[0] == FromBytes(buf[..8]) && Members(buf, n)[1] == FromBytes(buf[8..16])
  {
    var b := buf[..8 * n];
    assert b[..8] == buf[..8] && b[8..][..8] == buf[8..16];
    assert Words(b) == [FromBytes(b[..8])] + Words(b[8..]);
    assert Words(b[8..]) == [FromBytes(b[8..][..8])] + Words(b[8..][8..]);
  }

  lemma SamePrefixWords(a: Bytes, b: Bytes, n: nat, nread: nat)
    requires IsBuffer(a, n) && IsBuffer(b, n) && 16 <= nread <= |a| && a[..nread] == b[..nread]
    ensures Members(a, n)[..2] == Members(b, n)[..2]
    ensures nread >= 8 * n ==> Members(a, n) == Members(b, n)
  {
    FirstWords(a, n);
    FirstWords(b, n);
    assert a[..8] == a[..nread][..8] && a[8..16] == a[..nread][8..16];
    assert b[..8] == b[..nread][..8] && b[8..16] == b[..nread][8..16];
    if nread >= 8 * n {
      assert a[..8 * n] == a[..nread][..8 * n] == b[..8 * n];
    }
  }

  /** Bytes beyond the received ones, left over on the receiver's stack, never show. */
  lemma PrefixDependence(a: Bytes, b: Bytes, n: nat, nread: nat, fds: seq<Fd>)
    requires IsBuffer(a, n) && IsBuffer(b, n) && 16 <= nread <= |a| && a[..nread] == b[..nread]
    ensures Parse(a, n, nread, fds) == Parse(b, n, nread, fds)
  {
    SamePrefixWords(a, b, n, nread);
    var wa, wb := Members(a, n), Members(b, n);
    assert wa[0] == wa[..2][0] && wb[0] == wb[..2][0] && wa[1] == wa[..2][1] && wb[1] == wb[..2][1];
    SamePrefixString(a, b, nread, 8 * n);
    if nread >= 8 * n {
      SamePrefixEntries(wa, a, b, nread, 8 * n, fds);
    }
  }

  ghost predicate Within(s: Bytes, received: Bytes) {
    exists i: nat {:trigger received[i..]} :: i + |s| <= |received| && received[i..][..|s|] == s
  }

  ghost predicate StringsWithin(e: Entry, received: Bytes) {
    Within(e.key, received) && (e.item.Text? ==> Within(e.item.chars, received))
  }

  lemma StringWithin(buf: Bytes, nread: nat, off: nat)
    requires off < |buf| && nread <= |buf| && StringAt(buf, nread, off).Some?
    ensures Within(StringAt(buf, nread, off).value, buf[..nread])
  {
    var s := StringAt(buf, nread, off).value;
    assert buf[..nread][off + 1..][..|s|] == s;
  }

  lemma EntryWithin(w: bv64, buf: Bytes, nread: nat, off: nat, fds: seq<Fd>)
    requires nread <= |buf| && off + 512 <= |buf| && EntryAt(w, buf, nread, off, fds).Some?
    ensures StringsWithin(EntryAt(w, buf, nread, off, fds).value, buf[..nread])
  {
    StringWithin(buf, nread, off);
    var e := EntryAt(w, buf, nread, off, fds).value;
    if e.item.Text? {
      StringWithin(buf, nread, off + 1 + |e.key|);
    }
  }

  lemma {:induction false} EntriesWithin(words: seq<bv64>, buf: Bytes, nread: nat, off: nat, fds: seq<Fd>)
    requires nread <= |buf| && HasRoom(words, buf, off) && ParseFrom(words, buf, nread, off, fds).Some?
    ensures forall e :: e in ParseFrom(words, buf, nread, off, fds).value ==> StringsWithin(e, buf[..nread])
    decreases |words|
  {
    if words != [] && words[0] != NIL_MEMBER {
      EntryWithin(words[0], buf, nread, off, fds);
      var e := EntryAt(words[0], buf, nread, off, fds).value;
      EntriesWithin(words[1..], buf, nread, off + Size(e), fds[|Fds(e.item)|..]);
    }
  }

  /** Every string that a message yields lies inside the received bytes. */
  lemma StringsInsidePrefix(buf: Bytes, n: nat, nread: nat, fds: seq<Fd>)
    requires IsBuffer(buf, n) && 16 <= nread <= |buf| && Parse(buf, n, nread, fds).Some?
    ensures match Parse(buf, n, nread, fds).value
            case Flat(item) => item.Text? ==> Within(item.chars, buf[..nread])
            case Table(entries) => forall e :: e in entries ==> StringsWithin(e, buf[..nread])
  {
    match Parse(buf, n, nread, fds).value
    case Flat(item) =>
      if item.Text? {
        StringWithin(buf, nread, 8 * n);
      }
    case Table(entries) => EntriesWithin(Members(buf, n), buf, nread, 8 * n, fds);
  }
}
