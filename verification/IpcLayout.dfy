/**
  Which received messages are well formed, told from their layout: the words on the wire, the strings as the
  sender lays them out, the descriptors in turn. `IpcMessage.Parse` accepts these messages and no others, and
  yields what they hold.
 */
module IpcLayout {
  import opened Wrappers
  import opened Sequences
  import opened IpcMessage
  import opened IpcSender

  /** The sign of a word does not matter for its tag; a number is any word but a signalling NaN. */
  ghost predicate StandsFor(w: bv64, item: Item) {
    var u := w & 0x7FFF_FFFF_FFFF_FFFF;
    match item
    case Number(bits) => bits == w && !(0x7FF0_0000_0000_0000 < u < 0x7FF8_0000_0000_0000)
    case Boolean(b) => u == if b then 0x7FF0_0000_0000_0001 else 0x7FF0_0000_0000_0002
    case Text(_) => u == 0x7FF0_0000_0000_0003
    case Descriptor(_) => u == 0x7FF0_0000_0000_0004
    case Address(_) => u == 0x7FF0_0000_0000_0005
  }

  /** Each tag has one word, but for the sign. */
  lemma TagWords(w: bv64)
    ensures var u := w & 0x7FFF_FFFF_FFFF_FFFF;
            && (TagOf(w).NumberTag? <==> !(0x7FF0_0000_0000_0000 < u < 0x7FF8_0000_0000_0000))
            && (TagOf(w) == BoolTag(true) <==> u == 0x7FF0_0000_0000_0001)
            && (TagOf(w) == BoolTag(false) <==> u == 0x7FF0_0000_0000_0002)
            && (TagOf(w).TextTag? <==> u == 0x7FF0_0000_0000_0003)
            && (TagOf(w).DescriptorTag? <==> u == 0x7FF0_0000_0000_0004)
            && (TagOf(w).AddressTag? <==> u == 0x7FF0_0000_0000_0005)
  {
    SnanWords(w);
    KindWords(w);
  }

  lemma SnanWords(w: bv64)
    ensures IsSnan(w) <==> 0x7FF0_0000_0000_0000 < w & 0x7FFF_FFFF_FFFF_FFFF < 0x7FF8_0000_0000_0000
  {}

  lemma KindWords(w: bv64)
    ensures IsSnan(w) ==> w & 0x7FFF_FFFF_FFFF_FFFF == 0x7FF0_0000_0000_0000 + (w & MANTISSA_MASK)
    ensures IsSnan(w) ==> w & MANTISSA_MASK < 0x8_0000_0000_0000
  {}

  lemma StandsForIff(w: bv64, item: Item)
    ensures StandsFor(w, item) <==>
              match item
              case Number(bits) => TagOf(w).NumberTag? && bits == w
              case Boolean(b) => TagOf(w) == BoolTag(b)
              case Text(_) => TagOf(w).TextTag?
              case Descriptor(_) => TagOf(w).DescriptorTag?
              case Address(_) => TagOf(w).AddressTag?
  {
    TagWords(w);
  }

  lemma SizeByteIs(b: bv8, k: nat)
    requires k <= 255
    ensures b == SizeByte(k) <==> b as nat == k
  {}

  lemma FirstByte(buf: Bytes, off: nat, k: nat)
    requires off + 1 + k <= |buf|
    ensures buf[off..off + 1 + k] == [buf[off]] + buf[off + 1..off + 1 + k]
  {}

  /** A string is read exactly where its size and its bytes are. */
  lemma StringIff(buf: Bytes, nread: nat, off: nat, s: Bytes)
    requires off < |buf| && nread <= |buf|
    ensures StringAt(buf, nread, off) == Some(s) <==>
              |s| <= 255 && off + 1 + |s| <= nread && Holds(buf, off, Sized(s))
  {
    if StringAt(buf, nread, off) == Some(s) {
      SizeByteIs(buf[off], |s|);
      FirstByte(buf, off, |s|);
    } else if |s| <= 255 && off + 1 + |s| <= nread && Holds(buf, off, Sized(s)) {
      StringSent(buf, nread, off, s);
    }
  }

  lemma HoldsJoined(buf: Bytes, off: nat, a: Bytes, b: Bytes)
    ensures Holds(buf, off, a + b) <==> Holds(buf, off, a) && Holds(buf, off + |a|, b)
  {
    if Holds(buf, off, a + b) {
      HoldsBoth(buf, off, a, b);
    }
  }

  ghost predicate ItemStands(w: bv64, buf: Bytes, nread: nat, off: nat, fds: seq<Fd>, item: Item) {
    && Sendable(item) && StandsFor(w, item) && off + Extent(item) <= nread && Holds(buf, off, Strings(item))
    && Fds(item) <= fds
  }

  lemma ItemIff(w: bv64, buf: Bytes, nread: nat, off: nat, fds: seq<Fd>, item: Item)
    requires off < |buf| && off <= nread <= |buf|
    ensures ItemAt(w, buf, nread, off, fds) == Some(item) <==> ItemStands(w, buf, nread, off, fds, item)
  {
    StandsForIff(w, item);
    if item.Text? {
      StringIff(buf, nread, off, item.chars);
    }
  }

  ghost predicate EntryStands(w: bv64, buf: Bytes, nread: nat, off: nat, fds: seq<Fd>, e: Entry) {
    && SendableEntry(e) && StandsFor(w, e.item) && off + Size(e) <= nread && Holds(buf, off, EntryStrings(e))
    && Fds(e.item) <= fds
  }

  lemma EntryIff(w: bv64, buf: Bytes, nread: nat, off: nat, fds: seq<Fd>, e: Entry)
    requires nread <= |buf| && off + 512 <= |buf|
    ensures EntryAt(w, buf, nread, off, fds) == Some(e) <==> EntryStands(w, buf, nread, off, fds, e)
  {
    StringIff(buf, nread, off, e.key);
    if StringAt(buf, nread, off) == Some(e.key) {
      ItemIff(w, buf, nread, off + 1 + |e.key|, fds, e.item);
      if SendableEntry(e) {
        HoldsJoined(buf, off, Sized(e.key), Strings(e.item));
      }
    } else if SendableEntry(e) {
      HoldsJoined(buf, off, Sized(e.key), Strings(e.item));
    }
  }

  // ---------------------------------------------------------------- tables

  /** The members up to the first nil one stand for the entries, whose strings and descriptors follow in turn. */
  ghost predicate EntriesStand(words: seq<bv64>, buf: Bytes, nread: nat, off: nat, fds: seq<Fd>, entries: seq<Entry>) {
    && |entries| <= |words| && (|entries| < |words| ==> words[|entries|] == 0x7FF0_0000_0000_0006)
    && (forall i :: 0 <= i < |entries| ==> words[i] != 0x7FF0_0000_0000_0006 && StandsFor(words[i], entries[i].item))
    && (forall e :: e in entries ==> SendableEntry(e))
    && off + |AllStrings(entries)| <= nread && Holds(buf, off, AllStrings(entries))
    && AllFds(entries) <= fds
  }

  /** The first entry stands, and so do the others behind it. */
  lemma FirstStands(words: seq<bv64>, buf: Bytes, nread: nat, off: nat, fds: seq<Fd>, entries: seq<Entry>)
    requires entries != [] && EntriesStand(words, buf, nread, off, fds, entries)
    ensures words != [] && words[0] != NIL_MEMBER && EntryStands(words[0], buf, nread, off, fds, entries[0])
    ensures EntriesStand(words[1..], buf, nread, off + Size(entries[0]), fds[|Fds(entries[0].item)|..], entries[1..])
  {
    var e, rest := entries[0], entries[1..];
    assert SendableEntry(e);
    HoldsBoth(buf, off, EntryStrings(e), AllStrings(rest));
    FdsSplit(Fds(e.item), AllFds(rest), fds);
  }

  lemma FdsSplit(a: seq<Fd>, b: seq<Fd>, fds: seq<Fd>)
    ensures a + b <= fds <==> a <= fds && b <= fds[|a|..]
  {
    if a + b <= fds {
      assert fds[..|a + b|][..|a|] == a && fds[..|a + b|][|a|..] == b;
    }
  }

  lemma StandsFirst(words: seq<bv64>, buf: Bytes, nread: nat, off: nat, fds: seq<Fd>, e: Entry, rest: seq<Entry>)
    requires words != [] && words[0] != NIL_MEMBER && EntryStands(words[0], buf, nread, off, fds, e)
    requires EntriesStand(words[1..], buf, nread, off + Size(e), fds[|Fds(e.item)|..], rest)
    ensures EntriesStand(words, buf, nread, off, fds, [e] + rest)
  {
    AllOfFirst(e, rest);
    HoldsJoined(buf, off, EntryStrings(e), AllStrings(rest));
    FdsSplit(Fds(e.item), AllFds(rest), fds);
    StandsShifted(words, e, rest);
  }

  lemma AllOfFirst(e: Entry, rest: seq<Entry>)
    requires SendableEntry(e) && forall x :: x in rest ==> SendableEntry(x)
    ensures forall x :: x in [e] + rest ==> SendableEntry(x)
    ensures AllStrings([e] + rest) == EntryStrings(e) + AllStrings(rest)
    ensures AllFds([e] + rest) == Fds(e.item) + AllFds(rest)
  {
    assert ([e] + rest)[1..] == rest;
  }

  lemma StandsShifted(words: seq<bv64>, e: Entry, rest: seq<Entry>)
    requires words != [] && |rest| <= |words[1..]| && words[0] != 0x7FF0_0000_0000_0006 && StandsFor(words[0], e.item)
    requires forall i :: 0 <= i < |rest| ==> words[1..][i] != 0x7FF0_0000_0000_0006 && StandsFor(words[1..][i], rest[i].item)
    ensures forall i :: 0 <= i < |[e] + rest| ==>
              words[i] != 0x7FF0_0000_0000_0006 && StandsFor(words[i], ([e] + rest)[i].item)
  {
    forall i | 0 < i < |[e] + rest|
      ensures words[i] != 0x7FF0_0000_0000_0006 && StandsFor(words[i], ([e] + rest)[i].item)
    {
      assert words[1..][i - 1] == words[i] && ([e] + rest)[i] == rest[i - 1];
    }
  }

  lemma {:induction false} ParsedStands(words: seq<bv64>, buf: Bytes, nread: nat, off: nat, fds: seq<Fd>, entries: seq<Entry>)
    requires nread <= |buf| && HasRoom(words, buf, off) && off <= nread
    requires ParseFrom(words, buf, nread, off, fds) == Some(entries)
    ensures EntriesStand(words, buf, nread, off, fds, entries)
    decreases |words|
  {
    if words == [] || words[0] == NIL_MEMBER {
      assert entries == [] && AllStrings(entries) == [] && AllFds(entries) == [];
    } else {
      var e, rest := ParsedFirst(words, buf, nread, off, fds, entries);
      EntryIff(words[0], buf, nread, off, fds, e);
      ParsedStands(words[1..], buf, nread, off + Size(e), fds[|Fds(e.item)|..], rest);
      StandsFirst(words, buf, nread, off, fds, e, rest);
    }
  }

  lemma ParsedFirst(words: seq<bv64>, buf: Bytes, nread: nat, off: nat, fds: seq<Fd>, entries: seq<Entry>)
    returns (e: Entry, rest: seq<Entry>)
    requires nread <= |buf| && HasRoom(words, buf, off) && words != [] && words[0] != NIL_MEMBER
    requires ParseFrom(words, buf, nread, off, fds) == Some(entries)
    ensures entries == [e] + rest && EntryAt(words[0], buf, nread, off, fds) == Some(e)
    ensures HasRoom(words[1..], buf, off + Size(e)) && |Fds(e.item)| <= |fds|
    ensures ParseFrom(words[1..], buf, nread, off + Size(e), fds[|Fds(e.item)|..]) == Some(rest)
  {
    e, rest := entries[0], entries[1..];
  }

  lemma {:induction false} StandingParsed(words: seq<bv64>, buf: Bytes, nread: nat, off: nat, fds: seq<Fd>, entries: seq<Entry>)
    requires nread <= |buf| && HasRoom(words, buf, off) && EntriesStand(words, buf, nread, off, fds, entries)
    ensures ParseFrom(words, buf, nread, off, fds) == Some(entries)
    decreases |words|
  {
    if entries != [] {
      var e := entries[0];
      FirstStands(words, buf, nread, off, fds, entries);
      EntryIff(words[0], buf, nread, off, fds, e);
      StandingParsed(words[1..], buf, nread, off + Size(e), fds[|Fds(e.item)|..], entries[1..]);
      ParseNext(words, buf, nread, off, fds, e, entries[1..]);
      assert entries == [e] + entries[1..];
    }
  }

  // ---------------------------------------------------------------- messages

  /**
    A single value is led by the nil word, and a descriptor comes alone. For a table every member must have been
    received.
   */
  ghost predicate WellFormed(buf: Bytes, n: nat, nread: nat, fds: seq<Fd>, m: Message)
    requires IsBuffer(buf, n)
  {
    var words := Members(buf, n);
    match m
    case Flat(item) =>
      && words[0] == 0x7FF0_0000_0000_0006 && Sendable(item) && StandsFor(words[1], item)
      && (item.Text? ==> 8 * n + 1 + |item.chars| <= nread && Holds(buf, 8 * n, Strings(item)))
      && (HoldsFd(item) ==> fds == [item.fd])
    case Table(entries) => 8 * n <= nread && entries != [] && EntriesStand(words, buf, nread, 8 * n, fds, entries)
  }

  lemma FlatIff(w: bv64, buf: Bytes, nread: nat, off: nat, fds: seq<Fd>, item: Item)
    requires off < |buf| && nread <= |buf|
    ensures ParseFlat(w, buf, nread, off, fds) == Some(item) <==>
              && Sendable(item) && StandsFor(w, item)
              && (item.Text? ==> off + 1 + |item.chars| <= nread && Holds(buf, off, Strings(item)))
              && (HoldsFd(item) ==> fds == [item.fd])
  {
    if item.Text? {
      FlatTextIff(w, buf, nread, off, fds, item.chars);
    } else {
      FlatWordIff(w, buf, nread, off, fds, item);
    }
  }

  lemma FlatTextIff(w: bv64, buf: Bytes, nread: nat, off: nat, fds: seq<Fd>, chars: Bytes)
    requires off < |buf| && nread <= |buf|
    ensures ParseFlat(w, buf, nread, off, fds) == Some(Text(chars)) <==>
              && Sendable(Text(chars)) && StandsFor(w, Text(chars))
              && off + 1 + |chars| <= nread && Holds(buf, off, Strings(Text(chars)))
  {
    StandsForIff(w, Text(chars));
    StringIff(buf, nread, off, chars);
  }

  lemma FlatWordIff(w: bv64, buf: Bytes, nread: nat, off: nat, fds: seq<Fd>, item: Item)
    requires off < |buf| && nread <= |buf| && !item.Text?
    ensures ParseFlat(w, buf, nread, off, fds) == Some(item) <==>
              Sendable(item) && StandsFor(w, item) && (HoldsFd(item) ==> fds == [item.fd])
  {
    StandsForIff(w, item);
  }

  /** Exactly the well-formed messages are accepted, for what they hold. */
  lemma AcceptedIff(buf: Bytes, n: nat, nread: nat, fds: seq<Fd>, m: Message)
    requires IsBuffer(buf, n) && 16 <= nread <= |buf|
    ensures Parse(buf, n, nread, fds) == Some(m) <==> WellFormed(buf, n, nread, fds, m)
  {
    var words := Members(buf, n);
    match m
    case Flat(item) =>
      FlatIff(words[1], buf, nread, 8 * n, fds, item);
    case Table(entries) =>
      if Parse(buf, n, nread, fds) == Some(m) {
        ParsedStands(words, buf, nread, 8 * n, fds, entries);
      } else if WellFormed(buf, n, nread, fds, m) {
        FirstStands(words, buf, nread, 8 * n, fds, entries);
        StandingParsed(words, buf, nread, 8 * n, fds, entries);
      }
  }
}
