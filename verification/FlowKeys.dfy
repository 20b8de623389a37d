/** When two destinations share a flow: the key of internal/server/udp.go is made of text, and different
    addresses can print the same text (internal/protocol/address.go). */
module FlowKeys {
  import opened Bytes
  import opened Address
  import opened Policy
  import opened Resolve
  import opened NatTables

  const BAR: byte := 124
  const COLON: byte := 58
  const LEFT: byte := 91
  const RIGHT: byte := 93

  predicate Digit(c: byte)
  {
    48 <= c <= 57
  }

  /** `%d`, and `strconv.Itoa`, of a number that is not negative. */
  function Decimal(n: nat): (s: Text)
    ensures s != [] && forall i :: 0 <= i < |s| ==> Digit(s[i])
  {
    var digit: byte := n % 10 + 48;
    if n < 10 then [digit] else Decimal(n / 10) + [digit]
  }

  function Value(s: Text): int
  {
    if |s| == 0 then 0 else 10 * Value(Init(s)) + Last(s) - 48
  }

  lemma {:induction false} ValueOfDecimal(n: nat)
    ensures Value(Decimal(n)) == n
  {
    var s := Decimal(n);
    if n < 10 {
      assert |Init(s)| == 0;
    } else {
      ValueOfDecimal(n / 10);
      assert Init(s) == Decimal(n / 10) && Last(s) == n % 10 + 48;
    }
  }

  lemma DecimalInjective(i: nat, j: nat)
    requires Decimal(i) == Decimal(j)
    ensures i == j
  {
    ValueOfDecimal(i);
    ValueOfDecimal(j);
  }

  predicate Without(s: Text, c: byte)
  {
    forall i :: 0 <= i < |s| ==> s[i] != c
  }

  lemma SplitFirst(a: Text, b: Text, s: Text, t: Text, c: byte)
    requires a + [c] + s == b + [c] + t && Without(a, c) && Without(b, c)
    ensures a == b && s == t
  {
    var x := a + [c] + s;
    assert x[|a|] == c && x[|b|] == c;
    assert |a| == |b|;
    assert a == x[..|a|] && b == x[..|b|];
    assert s == x[|a| + 1..] && t == x[|b| + 1..];
  }

  lemma SplitLast(a: Text, b: Text, s: Text, t: Text, c: byte)
    requires a + [c] + s == b + [c] + t && Without(s, c) && Without(t, c)
    ensures a == b && s == t
  {
    var x := a + [c] + s;
    assert x[|a|] == c && x[|b|] == c;
    assert forall i :: |a| < i < |x| ==> x[i] == s[i - |a| - 1];
    assert forall i :: |b| < i < |x| ==> x[i] == t[i - |b| - 1];
    assert |a| == |b|;
    assert a == x[..|a|] && b == x[..|b|];
    assert s == x[|a| + 1..] && t == x[|b| + 1..];
  }

  /** `net.JoinHostPort`. */
  function JoinHostPort(host: Text, port: Text): Text
  {
    (if Without(host, COLON) then host else [LEFT] + host + [RIGHT]) + [COLON] + port
  }

  /** The prints of `net.IP.String`, left abstract. */
  type IpPrinter = Ip -> Text

  /** What is assumed of it: `net.ParseIP` undoes it, the two forms of an IPv4 address print alike, and the
      text is its own canonical name. */
  ghost predicate Prints(names: Names, show: IpPrinter)
  {
    forall ip :: |ip| == 4 || |ip| == 16 ==>
      && names.parse(show(ip)) == To16(ip)
      && show(ip) == show(To16(ip).value)
      && CanonicalName(names, show(ip)) == show(ip)
  }

  function HostText(show: IpPrinter, a: Address): Text
  {
    if a.atyp == ATYP_DOMAIN then a.host else show(a.ip)
  }

  /** `Address.String`. */
  function Target(show: IpPrinter, a: Address): Text
  {
    JoinHostPort(HostText(show, a), Decimal(a.port))
  }

  /** `flowKey`. */
  function FlowKey(sessionID: nat, target: Text): Key
  {
    Decimal(sessionID) + [BAR] + target
  }

  lemma Bracketed(h: Text, g: Text)
    requires Without(h, COLON) && h == [LEFT] + g + [RIGHT]
    ensures Without(g, COLON)
  {
    forall i | 0 <= i < |g| ensures g[i] != COLON {
      assert h[i + 1] == g[i];
    }
  }

  lemma JoinInjective(h: Text, p: Text, g: Text, q: Text)
    requires JoinHostPort(h, p) == JoinHostPort(g, q) && Without(p, COLON) && Without(q, COLON)
    ensures h == g && p == q
  {
    var left := if Without(h, COLON) then h else [LEFT] + h + [RIGHT];
    var right := if Without(g, COLON) then g else [LEFT] + g + [RIGHT];
    SplitLast(left, right, p, q, COLON);
    if Without(h, COLON) {
      if !Without(g, COLON) { Bracketed(h, g); }
    } else if Without(g, COLON) {
      Bracketed(g, h);
    } else {
      assert h == left[1..|left| - 1] && g == right[1..|right| - 1];
    }
  }

  /** Exactly when two datagrams share a key: same session, same port and same text of the host. */
  lemma SameKeyExactly(show: IpPrinter, i: nat, a: Address, j: nat, b: Address)
    ensures FlowKey(i, Target(show, a)) == FlowKey(j, Target(show, b)) <==>
            i == j && a.port == b.port && HostText(show, a) == HostText(show, b)
  {
    if FlowKey(i, Target(show, a)) == FlowKey(j, Target(show, b)) {
      SplitFirst(Decimal(i), Decimal(j), Target(show, a), Target(show, b), BAR);
      DecimalInjective(i, j);
      JoinInjective(HostText(show, a), Decimal(a.port), HostText(show, b), Decimal(b.port));
      DecimalInjective(a.port, b.port);
    }
  }

  /** Different addresses do share one: the text of an IPv4 address as a domain, the address, and its
      IPv4-mapped IPv6 form. All three are valid and canonical. */
  lemma AddressesCanShare(names: Names, show: IpPrinter, ip: Ip4, port: uint16, sessionID: nat)
    requires Prints(names, show)
    ensures var d := Address(ATYP_DOMAIN, show(ip), [], port);
            var v4 := Address(ATYP_IPV4, [], ip, port);
            var v6 := Address(ATYP_IPV6, [], To16(ip).value, port);
            && d != v4 && v4 != v6 && d != v6
            && Validate(names.parse, d) && Validate(names.parse, v4) && Validate(names.parse, v6)
            && Canon(d) == d && Canon(v4) == v4 && Canon(v6) == v6
            && FlowKey(sessionID, Target(show, d)) == FlowKey(sessionID, Target(show, v4))
            && FlowKey(sessionID, Target(show, v4)) == FlowKey(sessionID, Target(show, v6))
  {
    assert |To16(ip).value| == 16;
  }

  lemma SixteenBytesDecide(a: Address, b: Address)
    requires To16(a.ip).Some? && To16(a.ip) == To16(b.ip) && a.host == b.host && a.port == b.port
    ensures Literal(a) == Literal(b)
  {
    FourFromSixteen(a.ip);
    FourFromSixteen(b.ip);
  }

  lemma FourFromSixteen(ip: Ip)
    requires To16(ip).Some?
    ensures To4(To16(ip).value) == To4(ip)
  {
    if |ip| == 4 {
      assert To16(ip).value[..12] == V4_IN_V6 && To16(ip).value[12..] == ip;
    }
  }

  /** An address in the form a decoder gives. */
  ghost predicate Decoded(names: Names, a: Address)
  {
    Validate(names.parse, a) && Canon(a) == a
  }

  lemma NumericHost(names: Names, show: IpPrinter, d: Address, b: Address)
    requires Prints(names, show) && Decoded(names, d) && Decoded(names, b)
    requires d.atyp == ATYP_DOMAIN && b.atyp != ATYP_DOMAIN && d.host == show(b.ip) && d.port == b.port
    ensures Normalized(names, d) == Normalized(names, b)
  {
    var ip := To16(b.ip).value;
    assert names.parse(d.host) == Some(ip);
    SixteenBytesDecide(d.(host := [], ip := ip), b);
  }

  lemma SameTextSameForm(names: Names, show: IpPrinter, a: Address, b: Address)
    requires Prints(names, show) && Decoded(names, a) && Decoded(names, b)
    requires a.port == b.port && HostText(show, a) == HostText(show, b)
    ensures Normalized(names, a) == Normalized(names, b)
  {
    if a.atyp == ATYP_DOMAIN {
      if b.atyp != ATYP_DOMAIN { NumericHost(names, show, a, b); }
    } else if b.atyp == ATYP_DOMAIN {
      NumericHost(names, show, b, a);
    } else {
      TwoLiterals(names, show, a, b);
    }
  }

  lemma TwoLiterals(names: Names, show: IpPrinter, a: Address, b: Address)
    requires Prints(names, show) && Decoded(names, a) && Decoded(names, b)
    requires a.atyp != ATYP_DOMAIN && b.atyp != ATYP_DOMAIN && a.port == b.port && show(a.ip) == show(b.ip)
    ensures Normalized(names, a) == Normalized(names, b)
  {
    assert names.parse(show(a.ip)) == To16(a.ip) && names.parse(show(b.ip)) == To16(b.ip);
    SixteenBytesDecide(a, b);
  }

  /** But whoever shares a key is the same destination to the policy, so a flow admitted for one of them was
      admitted for all: they have one canonical form and resolve alike under every policy and every lookup. */
  lemma SameKeySamePolicy(names: Names, show: IpPrinter, i: nat, a: Address, j: nat, b: Address,
                          l: Rules, gate: Gate, lookup: Lookup)
    requires Prints(names, show) && Decoded(names, a) && Decoded(names, b)
    requires FlowKey(i, Target(show, a)) == FlowKey(j, Target(show, b))
    ensures i == j && Normalized(names, a) == Normalized(names, b)
    ensures Resolution(names, l, a, gate, lookup) == Resolution(names, l, b, gate, lookup)
  {
    SameKeyExactly(show, i, a, j, b);
    SameTextSameForm(names, show, a, b);
  }
}
