/** The SOCKS5-like address codec of internal/protocol/address.go (the address form of
    section 5 of RFC 1928): validation, encoding, and two independent decoders. */
module Address {
  import opened Bytes

  const ATYP_IPV4: byte := 1
  const ATYP_DOMAIN: byte := 3
  const ATYP_IPV6: byte := 4

  const DOT: byte := 46
  const DASH: byte := 45
  const UNDERSCORE: byte := 95

  /** `net.IP` is a byte slice; only lengths 4 and 16 denote addresses and nil is the empty one. */
  type Ip = seq<byte>

  /** Exactly one of `host` and `ip` is meaningful, depending on `atyp`. */
  datatype Address = Address(atyp: byte, host: seq<byte>, ip: Ip, port: uint16)

  /** `net.ParseIP`, left abstract: numeric text to its 16-byte form. */
  type IpParser = seq<byte> -> Option<Ip>

  /** What is assumed of `net.ParseIP`: its longest text is 45 bytes, its results are 16 bytes long. */
  ghost predicate Plausible(parse: IpParser)
  {
    forall h :: parse(h).Some? ==> |h| <= 45 && |parse(h).value| == 16
  }

  const V4_IN_V6: seq<byte> := [0, 0, 0, 0, 0, 0, 0, 0, 0, 0, 255, 255]

  function To4(ip: Ip): (r: Option<Ip>)
    ensures r.Some? ==> |r.value| == 4
  {
    if |ip| == 4 then Some(ip)
    else if |ip| == 16 && ip[..12] == V4_IN_V6 then Some(ip[12..])
    else None
  }

  function To16(ip: Ip): (r: Option<Ip>)
    ensures r.Some? ==> |r.value| == 16
  {
    if |ip| == 4 then Some(V4_IN_V6 + ip)
    else if |ip| == 16 then Some(ip)
    else None
  }

  /** Position of the first dot, or the length when there is none. */
  function FirstDot(s: seq<byte>): (i: nat)
    ensures i <= |s|
    ensures DOT !in s[..i]
    ensures i < |s| ==> s[i] == DOT
  {
    if s == [] || s[0] == DOT then 0
    else
      assert s[..1 + FirstDot(s[1..])] == [s[0]] + s[1..][..FirstDot(s[1..])];
      1 + FirstDot(s[1..])
  }

  /** `strings.Split(s, ".")`. */
  function Labels(s: seq<byte>): (labels: seq<seq<byte>>)
    ensures labels != []
    decreases |s|
  {
    var i := FirstDot(s);
    if i == |s| then [s] else [s[..i]] + Labels(s[i + 1..])
  }

  /** `strings.TrimSuffix(s, ".")`. */
  function TrimDot(s: seq<byte>): (r: seq<byte>)
    ensures |s| <= |r| + 1
  {
    if s != [] && s[|s| - 1] == DOT then s[..|s| - 1] else s
  }

  predicate HostByte(c: byte)
  {
    97 <= c <= 122 || 65 <= c <= 90 || 48 <= c <= 57 || c == DASH || c == UNDERSCORE
  }

  predicate WireLabel(part: seq<byte>)
  {
    1 <= |part| <= 63 && part[0] != DASH && part[|part| - 1] != DASH &&
    forall c :: c in part ==> HostByte(c)
  }

  predicate WireHost(host: seq<byte>)
  {
    var name := TrimDot(host);
    1 <= |name| <= 253 && forall part :: part in Labels(name) ==> WireLabel(part)
  }

  /** `Address.Validate() == nil`. Port zero stays valid. */
  predicate Validate(parse: IpParser, a: Address)
  {
    if a.atyp == ATYP_IPV4 then To4(a.ip).Some?
    else if a.atyp == ATYP_IPV6 then To16(a.ip).Some?
    else if a.atyp == ATYP_DOMAIN then parse(a.host).Some? || WireHost(a.host)
    else false
  }

  /** The bytes between the type byte and the port. */
  function Body(a: Address): seq<byte>
  {
    if a.atyp == ATYP_IPV4 then (match To4(a.ip) case Some(v4) => v4 case None => [])
    else if a.atyp == ATYP_IPV6 then (match To16(a.ip) case Some(v6) => v6 case None => [])
    else if a.atyp == ATYP_DOMAIN then [|a.host| % 256] + a.host
    else []
  }

  /** `Address.Encode(nil)`; an unknown type emits the port alone. */
  function Encode(a: Address): seq<byte>
  {
    (if a.atyp in [ATYP_IPV4, ATYP_IPV6, ATYP_DOMAIN] then [a.atyp] + Body(a) else []) + PutUint16(a.port)
  }

  /** `decodeAddress`: the slice decoder, with the number of bytes it consumed. */
  function DecodeAddress(parse: IpParser, buf: seq<byte>): (res: Result<(Address, nat)>)
    ensures res.Ok? ==> res.value.1 <= |buf|
  {
    if |buf| < 1 then Err(Malformed)
    else if buf[0] == ATYP_IPV4 then
      if |buf| < 7 then Err(Malformed)
      else Checked(parse, Address(buf[0], [], buf[1..5], GetUint16(buf[5], buf[6])), 7)
    else if buf[0] == ATYP_IPV6 then
      if |buf| < 19 then Err(Malformed)
      else Checked(parse, Address(buf[0], [], buf[1..17], GetUint16(buf[17], buf[18])), 19)
    else if buf[0] == ATYP_DOMAIN then
      if |buf| < 2 then Err(Malformed)
      else
        var end: nat := 2 + (buf[1] as int);
        if |buf| < end + 2 then Err(Malformed)
        else Checked(parse, Address(buf[0], buf[2..end], [], GetUint16(buf[end], buf[end + 1])), end + 2)
    else Err(Malformed)
  }

  function Checked(parse: IpParser, a: Address, used: nat): Result<(Address, nat)>
  {
    if Validate(parse, a) then Ok((a, used)) else Err(Malformed)
  }

  /** The form a decoder produces: IPv4 in 4 bytes, IPv6 in 16, the unused field empty. */
  function Canon(a: Address): Address
  {
    if a.atyp == ATYP_IPV4 then a.(host := [], ip := match To4(a.ip) case Some(v4) => v4 case None => a.ip)
    else if a.atyp == ATYP_IPV6 then a.(host := [], ip := match To16(a.ip) case Some(v6) => v6 case None => a.ip)
    else a.(ip := [])
  }

  lemma ValidHostIsShort(parse: IpParser, a: Address)
    requires Plausible(parse) && Validate(parse, a) && a.atyp == ATYP_DOMAIN
    ensures |a.host| <= 254
  {
  }

  lemma Slots(atyp: byte, body: seq<byte>, port: seq<byte>, tail: seq<byte>)
    requires |port| == 2
    ensures var buf := [atyp] + body + port + tail;
            && buf[0] == atyp && buf[1..1 + |body|] == body
            && buf[1 + |body|] == port[0] && buf[2 + |body|] == port[1]
            && (body != [] ==> buf[1] == body[0] && buf[2..1 + |body|] == body[1..])
  {
  }

  /** The fields a decoder must have found at the front of `buf` when it used `n` bytes. */
  ghost predicate Fields(buf: seq<byte>, a: Address, n: nat)
  {
    && 4 <= n <= |buf| && a.atyp == buf[0] && a.port == GetUint16(buf[n - 2], buf[n - 1])
    && if a.atyp == ATYP_IPV4 then n == 7 && a.ip == buf[1..5] && a.host == []
       else if a.atyp == ATYP_IPV6 then n == 19 && a.ip == buf[1..17] && a.host == []
       else a.atyp == ATYP_DOMAIN && n == 4 + (buf[1] as int) && a.host == buf[2..n - 2] && a.ip == []
  }

  lemma FieldsDecode(parse: IpParser, buf: seq<byte>, a: Address, n: nat)
    requires Fields(buf, a, n)
    ensures DecodeAddress(parse, buf) == Checked(parse, a, n)
  {
  }

  /** Canonical form keeps validity and the wire bytes. */
  lemma CanonSameWire(parse: IpParser, a: Address)
    requires Validate(parse, a)
    ensures Validate(parse, Canon(a)) && Encode(Canon(a)) == Encode(a) && Canon(Canon(a)) == Canon(a)
  {
  }

  /** The fields of an encoding, by address type. */
  lemma FixedFields(a: Address, buf: seq<byte>, tail: seq<byte>)
    requires (a.atyp == ATYP_IPV4 && To4(a.ip).Some?) || (a.atyp == ATYP_IPV6 && To16(a.ip).Some?)
    requires buf == Encode(a) + tail
    ensures Fields(buf, Canon(a), |Encode(a)|)
  {
    Slots(a.atyp, Body(a), PutUint16(a.port), tail);
  }

  lemma HostFields(a: Address, buf: seq<byte>, tail: seq<byte>)
    requires a.atyp == ATYP_DOMAIN && |a.host| < 256 && buf == Encode(a) + tail
    ensures Fields(buf, Canon(a), |Encode(a)|)
  {
    var body := Body(a);
    Slots(a.atyp, body, PutUint16(a.port), tail);
    assert body[0] == |a.host| && body[1..] == a.host;
  }

  lemma DecodeUndoesEncode(parse: IpParser, a: Address, tail: seq<byte>)
    requires Plausible(parse) && Validate(parse, a)
    ensures DecodeAddress(parse, Encode(a) + tail) == Ok((Canon(a), |Encode(a)|))
  {
    if a.atyp == ATYP_DOMAIN {
      ValidHostIsShort(parse, a);
      HostFields(a, Encode(a) + tail, tail);
    } else {
      FixedFields(a, Encode(a) + tail, tail);
    }
    FieldsDecode(parse, Encode(a) + tail, Canon(a), |Encode(a)|);
    CanonSameWire(parse, a);
  }

  lemma Frontal(buf: seq<byte>, n: nat)
    requires 4 <= n <= |buf|
    ensures buf[..n] == [buf[0]] + buf[1..n - 2] + [buf[n - 2], buf[n - 1]]
    ensures buf[1..n - 2] == [buf[1]] + buf[2..n - 2]
  {
  }

  lemma EncodeUndoesDecode(parse: IpParser, buf: seq<byte>)
    requires DecodeAddress(parse, buf).Ok?
    ensures var (a, n) := DecodeAddress(parse, buf).value;
            buf[..n] == Encode(a) && Validate(parse, a) && Canon(a) == a
  {
    var (a, n) := DecodeAddress(parse, buf).value;
    Frontal(buf, n);
    assert buf[1..n - 2] == Body(a);
    PutUndoesGet(buf[n - 2], buf[n - 1]);
  }

  /** The slice decoder accepts exactly the encodings of valid canonical addresses,
      and consumes exactly the encoding. */
  lemma DecodeExact(parse: IpParser, buf: seq<byte>, a: Address, n: nat)
    requires Plausible(parse)
    ensures DecodeAddress(parse, buf) == Ok((a, n)) <==>
            n <= |buf| && buf[..n] == Encode(a) && Validate(parse, a) && Canon(a) == a
  {
    if DecodeAddress(parse, buf) == Ok((a, n)) {
      EncodeUndoesDecode(parse, buf);
    }
    if n <= |buf| && buf[..n] == Encode(a) && Validate(parse, a) && Canon(a) == a {
      assert buf == buf[..n] + buf[n..];
      DecodeUndoesEncode(parse, a, buf[n..]);
    }
  }

  /** Encodings are self-delimiting: no encoding is a proper prefix of another. */
  lemma EncodePrefixFree(parse: IpParser, a: Address, b: Address, s: seq<byte>, t: seq<byte>)
    requires Plausible(parse) && Validate(parse, a) && Validate(parse, b)
    requires Encode(a) + s == Encode(b) + t
    ensures Canon(a) == Canon(b) && s == t
  {
    DecodeUndoesEncode(parse, a, s);
    DecodeUndoesEncode(parse, b, t);
    var n := |Encode(a)|;
    assert s == (Encode(a) + s)[n..] && t == (Encode(b) + t)[n..];
  }

  /** A length byte and the host behind it. */
  method ReadHost(r: Reader) returns (res: Result<seq<byte>>)
    modifies r
    ensures res.Ok? <==> |old(r.rest)| >= 1 && |old(r.rest)| >= 1 + (old(r.rest)[0] as int)
    ensures res.Ok? ==>
              && |res.value| == old(r.rest)[0] && res.value == old(r.rest)[1..1 + |res.value|]
              && r.rest == old(r.rest)[1 + |res.value|..]
    ensures res.Err? ==> r.rest == []
  {
    ghost var start := r.rest;
    var l := r.ReadFull(1);
    if l.Err? { return Err(l.error); }
    res := r.ReadFull(l.value[0]);
    if res.Ok? { assert res.value == start[1..][..l.value[0]]; }
  }

  /** A host of `m` bytes behind its type and its length. */
  lemma BehindLength(s: seq<byte>, m: nat)
    requires 2 + m <= |s|
    ensures s[1..][0] == s[1] && s[1..][1..1 + m] == s[2..2 + m] && s[1..][1 + m..] == s[2 + m..]
  {
  }

  /** Everything up to the port: the address so far and the bytes taken. */
  method ReadBody(r: Reader) returns (res: Result<Address>, ghost used: nat)
    modifies r
    ensures res.Ok? ==>
              && 2 <= used <= |old(r.rest)| && r.rest == old(r.rest)[used..]
              && (used + 2 <= |old(r.rest)| ==>
                    Fields(old(r.rest), res.value.(port := GetUint16(old(r.rest)[used], old(r.rest)[used + 1])), used + 2))
    ensures forall parse :: DecodeAddress(parse, old(r.rest)).Ok? ==> res.Ok? && used + 2 <= |old(r.rest)|
    ensures res.Err? ==> res.error == Malformed || r.rest == []
    ensures old(r.rest) == [] ==> res == Err(Eof)
  {
    ghost var start := r.rest;
    used := 0;
    var atyp := r.ReadFull(1);
    if atyp.Err? { return Err(atyp.error), 0; }
    var a := Address(atyp.value[0], [], [], 0);
    if a.atyp == ATYP_IPV4 {
      var buf := r.ReadFull(4);
      if buf.Err? { return Err(buf.error), 0; }
      assert buf.value == start[1..5] && r.rest == start[5..];
      res, used := Ok(a.(ip := buf.value)), 5;
    } else if a.atyp == ATYP_IPV6 {
      var buf := r.ReadFull(16);
      if buf.Err? { return Err(buf.error), 0; }
      assert buf.value == start[1..17] && r.rest == start[17..];
      res, used := Ok(a.(ip := buf.value)), 17;
    } else if a.atyp == ATYP_DOMAIN {
      var host := ReadHost(r);
      if host.Err? { return Err(host.error), 0; }
      BehindLength(start, |host.value|);
      res, used := Ok(a.(host := host.value)), 2 + |host.value|;
    } else {
      return Err(Malformed), 0;
    }
  }

  /** `ReadAddress`: the streaming decoder agrees with the slice decoder on every byte string:
      same acceptance, same address, same bytes consumed. */
  method ReadAddress(parse: IpParser, r: Reader) returns (res: Result<Address>)
    modifies r
    ensures res.Ok? <==> DecodeAddress(parse, old(r.rest)).Ok?
    ensures res.Ok? ==>
              var (a, n) := DecodeAddress(parse, old(r.rest)).value;
              res.value == a && r.rest == old(r.rest)[n..]
    ensures res.Err? ==> res.error == Malformed || r.rest == []
    ensures old(r.rest) == [] ==> res == Err(Eof)
  {
    ghost var start := r.rest;
    ghost var used;
    var body;
    body, used := ReadBody(r);
    if body.Err? { return body; }
    var port := r.ReadFull(2);
    if port.Err? { return Err(port.error); }
    assert start[used] == port.value[0] && start[used + 1] == port.value[1] && r.rest == start[used + 2..];
    var a := body.value.(port := GetUint16(port.value[0], port.value[1]));
    FieldsDecode(parse, start, a, used + 2);
    res := if Validate(parse, a) then Ok(a) else Err(Malformed);
  }
}
