/**
  Endpoints as text: an address and a port, "a.b.c.d:port" or "[v6 address]:port"
  (section 6 of RFC 5952). How an address alone is written and read is a parameter.
 */
module Endpoint {
  import opened Wrappers

  const PORT_LIMIT: nat := 0x1_0000   // std::uint16_t wraps here

  datatype Address = V4(id: nat) | V6(id: nat)

  datatype Error = EINVAL | OutOfRange | BadAddress

  datatype Parsed = Parsed(address: Address, port: nat)

  type Printer = Address -> string
  type Reader = string -> Option<Address>

  /** Addresses alone survive being written and read, and no IPv4 address starts with a bracket. */
  ghost predicate ReadsBack(show: Printer, read: Reader) {
    forall a {:trigger show(a)} :: read(show(a)) == Some(a) && (a.V4? ==> !StartsWith(show(a), '['))
  }

  predicate StartsWith(s: string, c: char) {
    s != "" && s[0] == c
  }

  // ---------------------------------------------------------------- decimal numbers

  predicate IsDigit(c: char) {
    '0' <= c <= '9'
  }

  predicate AllDigits(s: string) {
    forall i :: 0 <= i < |s| ==> IsDigit(s[i])
  }

  function DigitValue(c: char): nat
    requires IsDigit(c)
  {
    c as int - '0' as int
  }

  function Digit(d: nat): (c: char)
    requires d < 10
    ensures IsDigit(c) && DigitValue(c) == d
  {
    "0123456789"[d]
  }

  /** `std::to_chars`. */
  function Decimal(n: nat): (s: string)
    ensures s != "" && AllDigits(s)
  {
    if n < 10 then [Digit(n)] else Decimal(n / 10) + [Digit(n % 10)]
  }

  function Value(s: string): nat
    requires AllDigits(s)
    decreases |s|
  {
    if s == "" then 0 else 10 * Value(s[..|s| - 1]) + DigitValue(s[|s| - 1])
  }

  lemma {:induction false} ValueOfDecimal(n: nat)
    ensures Value(Decimal(n)) == n
  {
    if n >= 10 {
      ValueOfDecimal(n / 10);
      assert Decimal(n)[..|Decimal(n)| - 1] == Decimal(n / 10);
    }
  }

  /** The one spelling: a lone zero, or no zero in front. */
  predicate Canonical(s: string) {
    s != "" && AllDigits(s) && (StartsWith(s, '0') ==> |s| == 1)
  }

  lemma {:induction false} DecimalIsCanonical(n: nat)
    ensures Canonical(Decimal(n)) && (n > 0 ==> Decimal(n)[0] != '0')
  {
    if n >= 10 {
      DecimalIsCanonical(n / 10);
    }
  }

  lemma {:induction false} CanonicalIsDecimal(s: string)
    requires Canonical(s)
    ensures s == Decimal(Value(s))
    decreases |s|
  {
    var front, last := s[..|s| - 1], s[|s| - 1];
    assert s == front + [last];
    if front == "" {
      assert Value(front) == 0;
    } else {
      CanonicalIsDecimal(front);
      DecimalIsCanonical(Value(front));
      assert Value(front) != 0;
    }
  }

  /** Five characters are enough for any port. */
  lemma FiveDigits(port: nat)
    requires port < PORT_LIMIT
    ensures |Decimal(port)| <= 5
  {
    DecimalLength(port, 5);
  }

  function Power(k: nat): nat {
    if k == 0 then 1 else 10 * Power(k - 1)
  }

  lemma {:induction false} DecimalLength(n: nat, k: nat)
    requires k > 0
    ensures |Decimal(n)| <= k <==> n < Power(k)
    decreases k
  {
    if k > 1 && n >= 10 {
      DecimalLength(n / 10, k - 1);
    } else if k == 1 {
      assert Power(1) == 10;
    } else {
      PowerGrows(k);
    }
  }

  lemma {:induction false} PowerGrows(k: nat)
    requires k > 0
    ensures Power(k) >= 10
  {
    if k > 1 {
      PowerGrows(k - 1);
    }
  }

  // ---------------------------------------------------------------- printing

  function Printed(show: Printer, a: Address, port: int): string {
    var p := Decimal(port % PORT_LIMIT);
    if a.V4? then show(a) + ":" + p else "[" + show(a) + "]:" + p
  }

  /** `ip.tostring(a[, port])`: the port goes through a std::uint16_t. */
  method ToString(show: Printer, a: Address, port: Option<int>) returns (ret: string)
    ensures ret == if port.None? then show(a) else Printed(show, a, port.value)
  {
    ret := show(a);
    if port.Some? {
      var digits := Decimal(port.value % PORT_LIMIT);
      if a.V4? {
        ret := ret + ":";
      } else {
        ret := "[" + ret;
        ret := ret + "]:";
      }
      ret := ret + digits;
    }
  }

  // ---------------------------------------------------------------- parsing

  /** The last position of a character. */
  function LastIndex(s: string, c: char): (i: Option<nat>)
    ensures i.None? ==> c !in s
    ensures i.Some? ==> i.value < |s| && s[i.value] == c && c !in s[i.value + 1..]
    decreases |s|
  {
    if s == "" then None
    else if s[|s| - 1] == c then Some(|s| - 1)
    else
      assert s == s[..|s| - 1] + [s[|s| - 1]];
      LastIndex(s[..|s| - 1], c)
  }

  /** How many digits a text begins with. */
  function Leading(s: string): (k: nat)
    ensures k <= |s| && AllDigits(s[..k]) && (k < |s| ==> !IsDigit(s[k]))
  {
    if s == "" || !IsDigit(s[0]) then 0
    else
      var k := Leading(s[1..]);
      assert s[..k + 1] == [s[0]] + s[1..][..k];
      k + 1
  }

  function HostOf(read: Reader, host: string, port: nat): Result<Parsed, Error> {
    if StartsWith(host, '[') then
      if host[|host| - 1] != ']' then Err(EINVAL)
      else
        var a := read(host[1..|host| - 1]);
        if a.None? then Err(BadAddress) else if a.value.V4? then Err(EINVAL) else Ok(Parsed(a.value, port))
    else
      var a := read(host);
      if a.None? then Err(BadAddress) else if a.value.V6? then Err(EINVAL) else Ok(Parsed(a.value, port))
  }

  /** A port, or why there is none. Too large a number is told apart even when more text follows it. */
  function PortOf(p: string): Result<nat, Error> {
    var k := Leading(p);
    if StartsWith(p, '0') && |p| != 1 then Err(EINVAL)
    else if k == 0 then Err(EINVAL)
    else if Value(p[..k]) >= PORT_LIMIT then Err(OutOfRange)
    else if k != |p| then Err(EINVAL)
    else Ok(Value(p[..k]))
  }

  function EndpointOf(read: Reader, text: string): Result<Parsed, Error> {
    var idx := LastIndex(text, ':');
    if idx.None? then Err(EINVAL)
    else
      var port := PortOf(text[idx.value + 1..]);
      if port.Err? then Err(port.error) else HostOf(read, text[..idx.value], port.value)
  }

  method RFind(s: string, c: char) returns (idx: Option<nat>)
    ensures idx == LastIndex(s, c)
  {
    var n: nat := |s|;
    assert s[..n] == s;
    while n > 0
      invariant n <= |s| && LastIndex(s, c) == LastIndex(s[..n], c)
    {
      if s[n - 1] == c {
        return Some(n - 1);
      }
      assert s[..n][..n - 1] == s[..n - 1];
      n := n - 1;
    }
    idx := None;
  }

  /** `std::from_chars` into a std::uint16_t: an error, or the value and how much was read. */
  method FromChars(p: string) returns (value: Result<nat, Error>, read: nat)
    ensures read == Leading(p)
    ensures value == if read == 0 then Err(EINVAL) else if Value(p[..read]) >= PORT_LIMIT then Err(OutOfRange) else Ok(Value(p[..read]))
  {
    var sum := 0;
    read := 0;
    while read < |p| && IsDigit(p[read])
      invariant read <= |p| && AllDigits(p[..read]) && sum == Value(p[..read])
    {
      assert p[..read + 1][..read] == p[..read];
      sum := 10 * sum + DigitValue(p[read]);
      read := read + 1;
    }
    LeadingIs(p, read);
    value := if read == 0 then Err(EINVAL) else if sum >= PORT_LIMIT then Err(OutOfRange) else Ok(sum);
  }

  lemma {:induction false} LeadingIs(p: string, k: nat)
    requires k <= |p| && AllDigits(p[..k]) && (k < |p| ==> !IsDigit(p[k]))
    ensures Leading(p) == k
  {
    if k > 0 {
      assert p[..k][0] == p[0];
      assert p[1..][..k - 1] == p[..k][1..];
      LeadingIs(p[1..], k - 1);
    }
  }

  /** The part of `ip.toendpoint` after the port: brackets come off, then the address is read. */
  method ReadHost(read: Reader, text: string, port: nat) returns (r: Result<Parsed, Error>)
    ensures r == HostOf(read, text, port)
  {
    var host, isIpv6 := text, false;
    if StartsWith(host, '[') {
      if host[|host| - 1] != ']' {
        return Err(EINVAL);
      }
      host := host[..|host| - 1];
      host := host[1..];
      isIpv6 := true;
      assert host == text[1..|text| - 1];
    }
    var addr := read(host);
    if addr.None? {
      return Err(BadAddress);
    }
    if (isIpv6 && addr.value.V4?) || (!isIpv6 && addr.value.V6?) {
      return Err(EINVAL);
    }
    r := Ok(Parsed(addr.value, port));
  }

  /** `ip.toendpoint(text)`: the host is cut down step by step. */
  method ToEndpoint(read: Reader, text: string) returns (r: Result<Parsed, Error>)
    ensures r == EndpointOf(read, text)
  {
    var host := text;
    var idx := RFind(host, ':');
    if idx.None? {
      return Err(EINVAL);
    }
    var p := host[idx.value + 1..];
    if StartsWith(p, '0') && |p| != 1 {
      return Err(EINVAL);
    }
    var port, consumed := FromChars(p);
    if port.Err? {
      return Err(port.error);
    } else if consumed != |p| {
      return Err(EINVAL);
    }
    host := host[..|host| - (|p| + 1)];
    r := ReadHost(read, host, port.value);
  }

  // ---------------------------------------------------------------- printer and parser undo each other

  /** A host as it may stand before the port. */
  ghost predicate HostReads(read: Reader, host: string, a: Address) {
    if StartsWith(host, '[') then
      a.V6? && |host| >= 2 && host[|host| - 1] == ']' && read(host[1..|host| - 1]) == Some(a)
    else a.V4? && read(host) == Some(a)
  }

  ghost predicate Spells(read: Reader, text: string, host: string, e: Parsed) {
    e.port < PORT_LIMIT && text == host + ":" + Decimal(e.port) && HostReads(read, host, e.address)
  }

  lemma NoColonInDecimal(n: nat)
    ensures ':' !in Decimal(n)
  {
    assert forall i :: 0 <= i < |Decimal(n)| ==> IsDigit(Decimal(n)[i]);
  }

  lemma {:induction false} LastIndexUnique(s: string, c: char, i: nat)
    requires i < |s| && s[i] == c && c !in s[i + 1..]
    ensures LastIndex(s, c) == Some(i)
    decreases |s|
  {
    assert i < |s| - 1 ==> s[|s| - 1] == s[i + 1..][|s| - i - 2];
    if i < |s| - 1 {
      assert s[..|s| - 1][i + 1..] == s[i + 1..][..|s| - i - 2];
      LastIndexUnique(s[..|s| - 1], c, i);
    }
  }

  lemma LastIndexIs(host: string, rest: string)
    requires ':' !in rest
    ensures LastIndex(host + ":" + rest, ':') == Some(|host|)
  {
    assert (host + ":" + rest)[|host| + 1..] == rest;
    LastIndexUnique(host + ":" + rest, ':', |host|);
  }

  lemma PortOfDecimal(n: nat)
    requires n < PORT_LIMIT
    ensures PortOf(Decimal(n)) == Ok(n)
  {
    DecimalIsCanonical(n);
    ValueOfDecimal(n);
    LeadingIs(Decimal(n), |Decimal(n)|);
    assert Decimal(n)[..|Decimal(n)|] == Decimal(n);
  }

  /** A port is read exactly from the one canonical spelling of a number that fits. */
  lemma PortOfIff(p: string, n: nat)
    ensures PortOf(p) == Ok(n) <==> n < PORT_LIMIT && p == Decimal(n)
  {
    if PortOf(p) == Ok(n) {
      assert p[..|p|] == p;
      assert Canonical(p);
      CanonicalIsDecimal(p);
    } else if n < PORT_LIMIT && p == Decimal(n) {
      PortOfDecimal(n);
    }
  }

  lemma HostOfIff(read: Reader, host: string, e: Parsed)
    ensures HostOf(read, host, e.port) == Ok(e) <==> HostReads(read, host, e.address)
  {
    if StartsWith(host, '[') && |host| == 1 {
      assert host[|host| - 1] == '[';
    }
  }

  lemma EndpointAt(read: Reader, host: string, port: string)
    requires ':' !in port
    ensures EndpointOf(read, host + ":" + port)
            == if PortOf(port).Err? then Err(PortOf(port).error) else HostOf(read, host, PortOf(port).value)
  {
    LastIndexIs(host, port);
    var text := host + ":" + port;
    assert text[..|host|] == host && text[|host| + 1..] == port;
  }

  lemma SpelledIsAccepted(read: Reader, text: string, host: string, e: Parsed)
    requires Spells(read, text, host, e)
    ensures EndpointOf(read, text) == Ok(e)
  {
    NoColonInDecimal(e.port);
    EndpointAt(read, host, Decimal(e.port));
    PortOfDecimal(e.port);
    HostOfIff(read, host, e);
  }

  lemma AcceptedIsSpelled(read: Reader, text: string, e: Parsed) returns (host: string)
    requires EndpointOf(read, text) == Ok(e)
    ensures Spells(read, text, host, e)
  {
    var i := LastIndex(text, ':').value;
    host := text[..i];
    var port := text[i + 1..];
    assert text == host + ":" + port;
    EndpointAt(read, host, port);
    PortOfIff(port, PortOf(port).value);
    HostOfIff(read, host, e);
  }

  /** Exactly the texts "host:port" are accepted, with a host that reads and the canonical spelling of the port. */
  lemma AcceptsIff(read: Reader, text: string, e: Parsed)
    ensures EndpointOf(read, text) == Ok(e) <==> exists host :: Spells(read, text, host, e)
  {
    if EndpointOf(read, text) == Ok(e) {
      var host := AcceptedIsSpelled(read, text, e);
    }
    if host :| Spells(read, text, host, e) {
      SpelledIsAccepted(read, text, host, e);
    }
  }

  /** A number of at least 65536 with no zero in front, whatever follows it. */
  ghost predicate TooLarge(port: string, digits: string, rest: string) {
    && port == digits + rest && AllDigits(digits) && (rest == "" || !IsDigit(rest[0]))
    && Value(digits) >= 0x1_0000 && !StartsWith(port, '0')
  }

  /** Not an address, in brackets or without. */
  ghost predicate Unreadable(read: Reader, host: string) {
    if StartsWith(host, '[') then |host| >= 2 && host[|host| - 1] == ']' && read(host[1..|host| - 1]).None?
    else read(host).None?
  }

  lemma LeadingDigits(digits: string, rest: string)
    requires AllDigits(digits) && (rest == "" || !IsDigit(rest[0]))
    ensures Leading(digits + rest) == |digits| && (digits + rest)[..|digits|] == digits
  {
    assert (digits + rest)[..|digits|] == digits;
    LeadingIs(digits + rest, |digits|);
  }

  lemma TooLargeIff(port: string)
    ensures PortOf(port) == Err(OutOfRange) <==> exists digits, rest :: TooLarge(port, digits, rest)
  {
    if digits, rest :| TooLarge(port, digits, rest) {
      LeadingDigits(digits, rest);
    }
    if PortOf(port) == Err(OutOfRange) {
      var k := Leading(port);
      assert port == port[..k] + port[k..];
      assert TooLarge(port, port[..k], port[k..]);
    }
  }

  lemma HostErrors(read: Reader, host: string, port: nat)
    ensures HostOf(read, host, port) == Err(BadAddress) <==> Unreadable(read, host)
    ensures HostOf(read, host, port) != Err(OutOfRange)
  {
    if StartsWith(host, '[') && |host| == 1 {
      assert host[|host| - 1] == '[';
    }
  }

  /** Why a text is refused: too large a port is told first, then a host that does not read; the rest is EINVAL. */
  lemma RefusedIff(read: Reader, host: string, port: string)
    requires ':' !in port
    ensures var r := EndpointOf(read, host + ":" + port);
            && (r == Err(OutOfRange) <==> exists digits, rest :: TooLarge(port, digits, rest))
            && (r == Err(BadAddress) <==> (exists n: nat :: n < 0x1_0000 && port == Decimal(n)) && Unreadable(read, host))
  {
    EndpointAt(read, host, port);
    TooLargeIff(port);
    if PortOf(port).Ok? {
      PortOfIff(port, PortOf(port).value);
      HostErrors(read, host, PortOf(port).value);
    } else if n: nat :| n < 0x1_0000 && port == Decimal(n) {
      PortOfIff(port, n);
    } else {
      assert PortOf(port).error != BadAddress;
    }
  }

  lemma NoColonIsInvalid(read: Reader, text: string)
    requires ':' !in text
    ensures EndpointOf(read, text) == Err(EINVAL)
  {}

  /** What is printed for an address and a port is read as that address and the port modulo 65536. */
  lemma PrintedReadsBack(show: Printer, read: Reader, a: Address, port: int)
    requires ReadsBack(show, read)
    ensures EndpointOf(read, Printed(show, a, port)) == Ok(Parsed(a, port % PORT_LIMIT))
  {
    var host := if a.V4? then show(a) else "[" + show(a) + "]";
    var p := Decimal(port % PORT_LIMIT);
    if a.V6? {
      assert host[1..|host| - 1] == show(a);
      assert "[" + show(a) + "]:" + p == host + ":" + p;
    }
    assert Spells(read, Printed(show, a, port), host, Parsed(a, port % PORT_LIMIT));
    SpelledIsAccepted(read, Printed(show, a, port), host, Parsed(a, port % PORT_LIMIT));
  }

  /** So an endpoint survives exactly when its port is one. */
  lemma RoundTripIff(show: Printer, read: Reader, a: Address, port: int)
    requires ReadsBack(show, read)
    ensures (var r := EndpointOf(read, Printed(show, a, port)); r.Ok? && r.value.address == a && r.value.port == port)
            <==> 0 <= port <= 65535
  {
    PrintedReadsBack(show, read, a, port);
  }
}
