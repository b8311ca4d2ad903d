/** What the sender puts on the wire, and that the receiver reads back the same message. */
module IpcSender {
  import opened Wrappers
  import opened Sequences
  import opened IpcMessage

  /** One datagram and the descriptors passed along with it. */
  datatype Wire = Wire(bytes: Bytes, fds: seq<Fd>)

  // ---------------------------------------------------------------- encoding

  function ToBytes(w: bv64): (b: Bytes)
    ensures |b| == 8
  {
    [(w & 0xFF) as bv8, ((w >> 8) & 0xFF) as bv8, ((w >> 16) & 0xFF) as bv8, ((w >> 24) & 0xFF) as bv8,
     ((w >> 32) & 0xFF) as bv8, ((w >> 40) & 0xFF) as bv8, ((w >> 48) & 0xFF) as bv8, ((w >> 56) & 0xFF) as bv8]
  }

  lemma WordRoundTrip(w: bv64)
    ensures FromBytes(ToBytes(w)) == w
  {}

  function AllBytes(words: seq<bv64>): (b: Bytes)
    ensures |b| == 8 * |words|
  {
    if words == [] then [] else ToBytes(words[0]) + AllBytes(words[1..])
  }

  function KindMember(kind: bv64): bv64 {
    EXPONENT_MASK | kind
  }

  function MemberOf(item: Item): bv64 {
    match item
    case Number(bits) => bits
    case Boolean(b) => KindMember(if b then KIND_TRUE else KIND_FALSE)
    case Text(_) => KindMember(KIND_STRING)
    case Descriptor(_) => KindMember(KIND_FILE_DESCRIPTOR)
    case Address(_) => KindMember(KIND_ACTOR_ADDRESS)
  }

  /** A Lua number is never a signalling NaN, and a string's size has to fit its size byte. */
  predicate Sendable(item: Item) {
    (item.Number? ==> !IsSnan(item.bits)) && (item.Text? ==> |item.chars| <= 255)
  }

  predicate SendableEntry(e: Entry) {
    |e.key| <= 255 && Sendable(e.item)
  }

  lemma NextByte(b: bv8)
    requires b != 255
    ensures (b + 1) as nat == b as nat + 1
  {}

  /** A size as the byte it is sent in. */
  function SizeByte(k: nat): (b: bv8)
    requires k <= 255
    ensures b as nat == k
  {
    if k == 0 then 0 else NextByte(SizeByte(k - 1)); SizeByte(k - 1) + 1
  }

  function Sized(s: Bytes): Bytes
    requires |s| <= 255
  {
    [SizeByte(|s|)] + s
  }

  function Strings(item: Item): Bytes
    requires Sendable(item)
  {
    if item.Text? then Sized(item.chars) else []
  }

  function EntryStrings(e: Entry): (b: Bytes)
    requires SendableEntry(e)
    ensures |b| == Size(e)
  {
    Sized(e.key) + Strings(e.item)
  }

  function AllStrings(entries: seq<Entry>): Bytes
    requires forall e :: e in entries ==> SendableEntry(e)
  {
    if entries == [] then [] else EntryStrings(entries[0]) + AllStrings(entries[1..])
  }

  function AllFds(entries: seq<Entry>): seq<Fd> {
    if entries == [] then [] else Fds(entries[0].item) + AllFds(entries[1..])
  }

  function AllMembers(entries: seq<Entry>): (words: seq<bv64>)
    ensures |words| == |entries|
  {
    if entries == [] then [] else [MemberOf(entries[0].item)] + AllMembers(entries[1..])
  }

  /** A single value. The rest of the members is sent only when a string follows them. */
  function EncodeFlat(item: Item, n: nat): Wire
    requires n > 2 && Sendable(item)
  {
    var head := AllBytes([NIL_MEMBER, MemberOf(item)]);
    Wire(if item.Text? then head + AllBytes(Repeat(0, n - 2)) + Strings(item) else head, Fds(item))
  }

  predicate SendableTable(entries: seq<Entry>, n: nat) {
    1 <= |entries| <= n && forall e :: e in entries ==> SendableEntry(e)
  }

  function EncodeTable(entries: seq<Entry>, n: nat): Wire
    requires SendableTable(entries, n)
  {
    Wire(AllBytes(AllMembers(entries) + Repeat(NIL_MEMBER, n - |entries|)) + AllStrings(entries), AllFds(entries))
  }

  /** The words and bytes of the protocol, as they are on the wire, and the size of a message. */
  lemma WireWords(fd: Fd, s: Bytes, buf: Bytes, n: nat)
    ensures IsBuffer(buf, n) <==> n > 2 && |buf| == 520 * n
    ensures NIL_MEMBER == 0x7FF0_0000_0000_0006
    ensures MemberOf(Boolean(true)) == 0x7FF0_0000_0000_0001 && MemberOf(Boolean(false)) == 0x7FF0_0000_0000_0002
    ensures MemberOf(Text(s)) == 0x7FF0_0000_0000_0003
    ensures MemberOf(Descriptor(fd)) == 0x7FF0_0000_0000_0004 && MemberOf(Address(fd)) == 0x7FF0_0000_0000_0005
    ensures ToBytes(NIL_MEMBER) == [6, 0, 0, 0, 0, 0, 0xF0, 0x7F]
  {}

  // ---------------------------------------------------------------- one entry more

  lemma {:induction false} StringsAppend(entries: seq<Entry>, e: Entry)
    requires (forall x :: x in entries ==> SendableEntry(x)) && SendableEntry(e)
    ensures AllStrings(entries + [e]) == AllStrings(entries) + EntryStrings(e)
    decreases |entries|
  {
    if entries == [] {
      assert [e][1..] == [];
    } else {
      var first, rest := entries[0], entries[1..];
      StringsAppend(rest, e);
      ConcatRest(entries, [e]);
      ConcatAssociative(EntryStrings(first), AllStrings(rest), EntryStrings(e));
    }
  }

  lemma {:induction false} FdsAppend(entries: seq<Entry>, e: Entry)
    ensures AllFds(entries + [e]) == AllFds(entries) + Fds(e.item)
    decreases |entries|
  {
    if entries == [] {
      assert [e][1..] == [];
    } else {
      FdsAppend(entries[1..], e);
      ConcatRest(entries, [e]);
      ConcatAssociative(Fds(entries[0].item), AllFds(entries[1..]), Fds(e.item));
    }
  }

  lemma {:induction false} MembersAppend(entries: seq<Entry>, e: Entry)
    ensures AllMembers(entries + [e]) == AllMembers(entries) + [MemberOf(e.item)]
    decreases |entries|
  {
    if entries == [] {
      assert [e][1..] == [];
    } else {
      MembersAppend(entries[1..], e);
      ConcatRest(entries, [e]);
      ConcatAssociative([MemberOf(entries[0].item)], AllMembers(entries[1..]), [MemberOf(e.item)]);
    }
  }

  // ---------------------------------------------------------------- the receiver reads back what was sent

  lemma WordFirst(b: Bytes, rest: Bytes)
    requires |b| == 8 && |rest| % 8 == 0
    ensures Words(b + rest) == [FromBytes(b)] + Words(rest)
  {
    assert (b + rest)[..8] == b && (b + rest)[8..] == rest;
  }

  lemma {:induction false} WordsSent(words: seq<bv64>)
    ensures Words(AllBytes(words)) == words
  {
    if words != [] {
      WordFirst(ToBytes(words[0]), AllBytes(words[1..]));
      WordRoundTrip(words[0]);
      WordsSent(words[1..]);
    }
  }

  ghost predicate Holds(buf: Bytes, off: nat, s: Bytes) {
    off + |s| <= |buf| && buf[off..off + |s|] == s
  }

  lemma PrefixSplit(buf: Bytes, a: Bytes, b: Bytes)
    requires a + b <= buf
    ensures buf[..|a|] == a && Holds(buf, |a|, b)
  {
    var part := buf[..|a + b|];
    assert part[..|a|] == a && part[|a|..] == b;
  }

  lemma HoldsBoth(buf: Bytes, off: nat, a: Bytes, b: Bytes)
    requires Holds(buf, off, a + b)
    ensures Holds(buf, off, a) && Holds(buf, off + |a|, b)
  {
    var part := buf[off..off + |a + b|];
    assert part[..|a|] == a && part[|a|..] == b;
  }

  lemma StringSent(buf: Bytes, nread: nat, off: nat, s: Bytes)
    requires |s| <= 255 && off + 1 + |s| <= nread <= |buf| && Holds(buf, off, Sized(s))
    ensures StringAt(buf, nread, off) == Some(s)
  {
    HoldsBoth(buf, off, [SizeByte(|s|)], s);
    assert buf[off] == buf[off..off + 1][0];
  }

  /** Each tag is read back as what it was written for. */
  lemma TagSent(item: Item)
    requires Sendable(item)
    ensures MemberOf(item) != NIL_MEMBER
    ensures TagOf(MemberOf(item)) == match item
            case Number(_) => NumberTag
            case Boolean(b) => BoolTag(b)
            case Text(_) => TextTag
            case Descriptor(_) => DescriptorTag
            case Address(_) => AddressTag
  {}

  lemma ItemSent(item: Item, buf: Bytes, nread: nat, off: nat, fds: seq<Fd>)
    requires Sendable(item) && off < |buf| && off + Extent(item) <= nread <= |buf|
    requires Holds(buf, off, Strings(item)) && Fds(item) <= fds
    ensures ItemAt(MemberOf(item), buf, nread, off, fds) == Some(item)
  {
    TagSent(item);
    if item.Text? {
      StringSent(buf, nread, off, item.chars);
    }
  }

  lemma EntrySent(e: Entry, buf: Bytes, nread: nat, off: nat, fds: seq<Fd>)
    requires SendableEntry(e) && off + Size(e) <= nread <= |buf| && off + 512 <= |buf|
    requires Holds(buf, off, EntryStrings(e)) && Fds(e.item) <= fds
    ensures EntryAt(MemberOf(e.item), buf, nread, off, fds) == Some(e)
  {
    HoldsBoth(buf, off, Sized(e.key), Strings(e.item));
    StringSent(buf, nread, off, e.key);
    ItemSent(e.item, buf, nread, off + 1 + |e.key|, fds);
  }

  lemma ParseStep(words: seq<bv64>, buf: Bytes, nread: nat, off: nat, e: Entry, fds: seq<Fd>, entries: seq<Entry>)
    requires nread <= |buf| && HasRoom(words, buf, off) && words != [] && words[0] != NIL_MEMBER
    requires EntryAt(words[0], buf, nread, off, Fds(e.item) + fds) == Some(e)
    requires HasRoom(words[1..], buf, off + Size(e))
    requires ParseFrom(words[1..], buf, nread, off + Size(e), fds) == Some(entries)
    ensures ParseFrom(words, buf, nread, off, Fds(e.item) + fds) == Some([e] + entries)
  {
    assert (Fds(e.item) + fds)[|Fds(e.item)|..] == fds;
    ParseNext(words, buf, nread, off, Fds(e.item) + fds, e, entries);
  }

  lemma EntryFirst(entries: seq<Entry>, pad: seq<bv64>)
    requires entries != []
    ensures (AllMembers(entries) + pad)[0] == MemberOf(entries[0].item)
    ensures (AllMembers(entries) + pad)[1..] == AllMembers(entries[1..]) + pad
    ensures AllFds(entries) == Fds(entries[0].item) + AllFds(entries[1..])
  {
    ConcatAssociative([MemberOf(entries[0].item)], AllMembers(entries[1..]), pad);
  }

  lemma FirstEntrySent(entries: seq<Entry>, buf: Bytes, nread: nat, off: nat)
    requires entries != [] && forall e :: e in entries ==> SendableEntry(e)
    requires off + |AllStrings(entries)| <= nread <= |buf| && off + 512 <= |buf| && Holds(buf, off, AllStrings(entries))
    ensures var e := entries[0];
            && MemberOf(e.item) != NIL_MEMBER
            && EntryAt(MemberOf(e.item), buf, nread, off, Fds(e.item) + AllFds(entries[1..])) == Some(e)
            && Holds(buf, off + Size(e), AllStrings(entries[1..]))
            && Size(e) + |AllStrings(entries[1..])| == |AllStrings(entries)|
  {
    var e := entries[0];
    assert SendableEntry(e);
    HoldsBoth(buf, off, EntryStrings(e), AllStrings(entries[1..]));
    TagSent(e.item);
    EntrySent(e, buf, nread, off, Fds(e.item) + AllFds(entries[1..]));
  }

  lemma {:induction false} EntriesSent(entries: seq<Entry>, pad: seq<bv64>, buf: Bytes, nread: nat, off: nat)
    requires forall e :: e in entries ==> SendableEntry(e)
    requires pad == [] || pad[0] == NIL_MEMBER
    requires off + 512 * (|entries| + |pad|) <= |buf| && off + |AllStrings(entries)| <= nread <= |buf|
    requires Holds(buf, off, AllStrings(entries))
    ensures ParseFrom(AllMembers(entries) + pad, buf, nread, off, AllFds(entries)) == Some(entries)
  {
    if entries == [] {
      assert AllMembers(entries) + pad == pad;
    } else {
      var e, rest := entries[0], entries[1..];
      EntryFirst(entries, pad);
      FirstEntrySent(entries, buf, nread, off);
      EntriesSent(rest, pad, buf, nread, off + Size(e));
      ParseStep(AllMembers(entries) + pad, buf, nread, off, e, AllFds(rest), rest);
      assert entries == [e] + rest;
    }
  }

  lemma TableWords(words: seq<bv64>, strings: Bytes, n: nat, buf: Bytes)
    requires IsBuffer(buf, n) && |words| == n && AllBytes(words) + strings <= buf
    ensures Members(buf, n) == words && Holds(buf, 8 * n, strings)
  {
    PrefixSplit(buf, AllBytes(words), strings);
    WordsSent(words);
  }

  /** A table arrives as it was sent, entry by entry, whatever else the receiver's buffer holds. */
  lemma TableRoundTrip(entries: seq<Entry>, n: nat, buf: Bytes)
    requires SendableTable(entries, n) && IsBuffer(buf, n) && EncodeTable(entries, n).bytes <= buf
    ensures var wire := EncodeTable(entries, n);
            && 16 <= |wire.bytes|
            && Parse(buf, n, |wire.bytes|, wire.fds) == Some(Table(entries))
  {
    var nread := |EncodeTable(entries, n).bytes|;
    TableWords(AllMembers(entries) + Repeat(NIL_MEMBER, n - |entries|), AllStrings(entries), n, buf);
    EntryFirst(entries, Repeat(NIL_MEMBER, n - |entries|));
    assert entries[0] in entries;
    TagSent(entries[0].item);
    EntriesSent(entries, Repeat(NIL_MEMBER, n - |entries|), buf, nread, 8 * n);
  }

  lemma FlatWords(item: Item, n: nat, buf: Bytes)
    requires n > 2 && IsBuffer(buf, n) && AllBytes([NIL_MEMBER, MemberOf(item)]) <= buf
    ensures Members(buf, n)[0] == NIL_MEMBER && Members(buf, n)[1] == MemberOf(item)
  {
    var head := [NIL_MEMBER, MemberOf(item)];
    WordRoundTrip(NIL_MEMBER);
    WordRoundTrip(MemberOf(item));
    assert head[1..] == [MemberOf(item)];
    assert buf[..16] == AllBytes(head);
    FirstWords(buf, n);
    assert buf[..8] == buf[..16][..8] && buf[8..16] == buf[..16][8..];
  }

  /** So does a single value. */
  lemma FlatRoundTrip(item: Item, n: nat, buf: Bytes)
    requires Sendable(item) && n > 2 && IsBuffer(buf, n) && EncodeFlat(item, n).bytes <= buf
    ensures var wire := EncodeFlat(item, n);
            && 16 <= |wire.bytes|
            && Parse(buf, n, |wire.bytes|, wire.fds) == Some(Flat(item))
  {
    var wire, head := EncodeFlat(item, n), AllBytes([NIL_MEMBER, MemberOf(item)]);
    assert head <= wire.bytes;
    FlatWords(item, n, buf);
    TagSent(item);
    if item.Text? {
      PrefixSplit(buf, head + AllBytes(Repeat(0, n - 2)), Strings(item));
      ItemSent(item, buf, |wire.bytes|, 8 * n, wire.fds);
    }
  }
}
