/** Destination policy (internal/acl/acl.go): canonical addresses and the allow and deny rules. */
module Policy {
  import opened Bytes
  import opened Address

  type Text = seq<byte>

  /** Library functions on text, left abstract: `strings.ToLower` and `net.ParseIP`. */
  datatype Names = Names(lower: Text -> Text, parse: IpParser)

  predicate NameByte(c: byte)
  {
    97 <= c <= 122 || 48 <= c <= 57 || c == DASH || c == UNDERSCORE
  }

  ghost predicate Plain(s: Text)
  {
    forall i :: 0 <= i < |s| ==> NameByte(s[i]) || s[i] == DOT
  }

  /** What is assumed of the two: lower-casing leaves names without capitals alone, parsing gives 16 bytes. */
  ghost predicate Sane(names: Names)
  {
    && Plausible(names.parse)
    && forall s :: Plain(s) ==> names.lower(s) == s
  }

  predicate ValidLabel(part: Text)
  {
    1 <= |part| <= 63 && forall i :: 0 <= i < |part| ==> NameByte(part[i])
  }

  predicate ValidLabels(parts: seq<Text>)
  {
    forall i :: 0 <= i < |parts| ==> ValidLabel(parts[i])
  }

  predicate ValidName(s: Text)
  {
    1 <= |s| <= 253 && ValidLabels(Labels(s))
  }

  function CanonicalName(names: Names, s: Text): Text
  {
    names.lower(TrimDot(s))
  }

  datatype Rule = Cidr(net: Ip, mask: seq<byte>) | Domain(name: Text)

  datatype List = List(allowHosts: seq<Rule>, denyHosts: seq<Rule>, allowPorts: set<uint16>, denyPorts: set<uint16>)

  /** A nil `*List` allows everything. */
  type Rules = Option<List>

  /** The literal form: 4 bytes where there is such a form, otherwise 16. */
  function Literal(a: Address): Option<Address>
  {
    match To4(a.ip)
    case Some(v4) => Some(a.(atyp := ATYP_IPV4, ip := v4))
    case None =>
      match To16(a.ip)
      case Some(v6) => Some(a.(atyp := ATYP_IPV6, ip := v6))
      case None => None
  }

  /** `normalized`; None is `ErrAddress`. */
  function Normalized(names: Names, a: Address): Option<Address>
  {
    if a.port == 0 then None
    else if a.atyp == ATYP_DOMAIN then
      var host := CanonicalName(names, a.host);
      match names.parse(host)
      case Some(ip) => Literal(a.(host := [], ip := ip))
      case None => if ValidName(host) then Some(a.(host := host)) else None
    else if a.atyp == ATYP_IPV4 || a.atyp == ATYP_IPV6 then Literal(a)
    else None
  }

  predicate PortsAllowed(l: Rules, port: uint16)
  {
    l.None? || (port !in l.value.denyPorts && (l.value.allowPorts == {} || port in l.value.allowPorts))
  }

  /** Bitwise and. */
  function And(x: nat, y: nat): nat
  {
    if x == 0 || y == 0 then 0 else 2 * And(x / 2, y / 2) + (x % 2) * (y % 2)
  }

  /** A network number with a mask of its own length, or two empty slices. */
  function NetworkAndMask(net: Ip, mask: seq<byte>): (r: (Ip, seq<byte>))
    ensures |r.0| == |r.1|
  {
    var number := match To4(net) case Some(v4) => v4 case None => net;
    if |number| == |mask| && (|mask| == 4 || |mask| == 16) then (number, mask)
    else if |number| == 4 && |mask| == 16 then (number, mask[12..])
    else ([], [])
  }

  /** `net.IPNet.Contains`. */
  predicate Contains(net: Ip, mask: seq<byte>, ip: Ip)
  {
    var x := match To4(ip) case Some(v4) => v4 case None => ip;
    var (number, m) := NetworkAndMask(net, mask);
    |x| == |number| && forall i :: 0 <= i < |x| ==> And(number[i], m[i]) == And(x[i], m[i])
  }

  /** `strings.HasSuffix(host, "." + name)`. */
  predicate Under(host: Text, name: Text)
  {
    var tail := [DOT] + name;
    |tail| <= |host| && host[|host| - |tail|..] == tail
  }

  predicate Matches(r: Rule, a: Address)
  {
    match r
    case Cidr(net, mask) => a.atyp != ATYP_DOMAIN && Contains(net, mask, a.ip)
    case Domain(name) => name != [] && a.atyp == ATYP_DOMAIN && (a.host == name || Under(a.host, name))
  }

  predicate AnyMatch(rules: seq<Rule>, a: Address)
  {
    exists i :: 0 <= i < |rules| && Matches(rules[i], a)
  }

  method MatchAny(rules: seq<Rule>, a: Address) returns (found: bool)
    ensures found <==> AnyMatch(rules, a)
  {
    for i := 0 to |rules|
      invariant forall j :: 0 <= j < i ==> !Matches(rules[j], a)
    {
      if Matches(rules[i], a) {
        return true;
      }
    }
    return false;
  }

  /** `Allowed` on an address already in canonical form. */
  predicate HostAllowed(l: Rules, a: Address)
  {
    l.None? || (!AnyMatch(l.value.denyHosts, a) && (l.value.allowHosts == [] || AnyMatch(l.value.allowHosts, a)))
  }

  predicate Allowed(names: Names, l: Rules, addr: Address)
  {
    match Normalized(names, addr)
    case None => false
    case Some(a) => PortsAllowed(l, a.port) && HostAllowed(l, a)
  }

  predicate ResolvedAllowed(l: Rules, original: Address, ip: Address)
  {
    PortsAllowed(l, original.port) &&
    (l.None? ||
     (!AnyMatch(l.value.denyHosts, original) && !AnyMatch(l.value.denyHosts, ip) &&
      (l.value.allowHosts == [] || AnyMatch(l.value.allowHosts, original) || AnyMatch(l.value.allowHosts, ip))))
  }

  // ---- Normalisation is idempotent -----------------------------------------------------------

  lemma JoinPlain(s: Text, d: nat)
    requires d < |s| && s[d] == DOT && ValidLabel(s[..d]) && Plain(s[d + 1..])
    ensures Plain(s)
  {
    var first, rest := s[..d], s[d + 1..];
    forall i | 0 <= i < |s| ensures NameByte(s[i]) || s[i] == DOT {
      if i < d { assert first[i] == s[i]; }
      if i > d { assert rest[i - d - 1] == s[i]; }
    }
  }

  lemma TailLabels(first: Text, others: seq<Text>)
    requires ValidLabels([first] + others)
    ensures ValidLabel(first) && ValidLabels(others)
  {
    var parts := [first] + others;
    assert parts[0] == first;
    forall i | 0 <= i < |others| ensures ValidLabel(others[i]) {
      assert parts[i + 1] == others[i];
    }
  }

  /** A valid name is made of name bytes and dots and does not end in a dot. */
  lemma {:induction false} NameBytes(s: Text)
    requires ValidLabels(Labels(s))
    ensures Plain(s) && s != [] && s[|s| - 1] != DOT
    decreases |s|
  {
    var d := FirstDot(s);
    if d == |s| {
      assert Labels(s)[0] == s;
    } else {
      TailLabels(s[..d], Labels(s[d + 1..]));
      NameBytes(s[d + 1..]);
      JoinPlain(s, d);
    }
  }

  /** Canonical names are fixed points. */
  lemma CanonicalStays(names: Names, s: Text)
    requires Sane(names) && ValidName(s)
    ensures CanonicalName(names, s) == s
  {
    NameBytes(s);
    assert TrimDot(s) == s;
  }

  lemma NormalizedIdempotent(names: Names, a: Address)
    requires Sane(names) && Normalized(names, a).Some?
    ensures Normalized(names, Normalized(names, a).value) == Normalized(names, a)
  {
    var b := Normalized(names, a).value;
    if b.atyp == ATYP_DOMAIN {
      CanonicalStays(names, b.host);
    }
  }

  /** A host that is the text of an address is treated exactly like that address, in either literal type. */
  lemma NumericLikeLiteral(names: Names, a: Address, literal: byte)
    requires a.atyp == ATYP_DOMAIN && names.parse(CanonicalName(names, a.host)).Some?
    requires literal == ATYP_IPV4 || literal == ATYP_IPV6
    ensures var ip := names.parse(CanonicalName(names, a.host)).value;
            Normalized(names, a) == Normalized(names, Address(literal, [], ip, a.port))
  {
  }
}
