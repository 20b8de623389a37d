/** SOCKS5 UDP packets (section 7 of RFC 1928) as internal/proxy/socks_udp.go parses and builds them. */
module SocksUdp {
  import opened Bytes
  import opened Address
  import opened Frame

  datatype Packet = Packet(addr: Address, payload: seq<byte>)

  /** `buildSOCKSUDP`. */
  function BuildSocksUdp(p: Packet): seq<byte>
  {
    [0, 0, 0] + Encode(p.addr) + p.payload
  }

  /** What a relayed packet must be: a valid canonical destination with a port, and a legal payload. */
  ghost predicate Relayable(parse: IpParser, p: Packet)
  {
    && Validate(parse, p.addr) && Canon(p.addr) == p.addr && p.addr.port != 0
    && !(p.addr.atyp == ATYP_DOMAIN && p.addr.host == [])
    && |p.payload| <= MAX_UDP_PAYLOAD
  }

  /** The packet `parseSOCKSUDP` reads from `b`. */
  function SocksPacket(parse: IpParser, b: seq<byte>): Option<Packet>
  {
    if |b| < 4 || b[..3] != [0, 0, 0] then None
    else
      match DecodeAddress(parse, b[3..])
      case Err(_) => None
      case Ok((addr, used)) =>
        if addr.port == 0 || (addr.atyp == ATYP_DOMAIN && addr.host == []) then None
        else if |b| - 3 - used > MAX_UDP_PAYLOAD then None
        else Some(Packet(addr, b[3 + used..]))
  }

  lemma ParseUndoesBuild(parse: IpParser, p: Packet)
    requires Plausible(parse) && Relayable(parse, p)
    ensures SocksPacket(parse, BuildSocksUdp(p)) == Some(p)
  {
    Pieces([0, 0, 0], Encode(p.addr), p.payload);
    DecodeUndoesEncode(parse, p.addr, p.payload);
  }

  lemma BuildUndoesParse(parse: IpParser, b: seq<byte>)
    requires SocksPacket(parse, b).Some?
    ensures var p := SocksPacket(parse, b).value; Relayable(parse, p) && BuildSocksUdp(p) == b
  {
    var p := SocksPacket(parse, b).value;
    EncodeUndoesDecode(parse, b[3..]);
    ThreeParts(b, DecodeAddress(parse, b[3..]).value.1);
  }

  lemma ThreeParts(b: seq<byte>, used: nat)
    requires 3 + used <= |b|
    ensures b == b[..3] + b[3..][..used] + b[3 + used..]
  {
  }

  /** Parsing is the exact inverse of building: a byte string is accepted iff it was built from a
      relayable packet, and that packet is returned. */
  lemma SocksPacketExact(parse: IpParser, b: seq<byte>, p: Packet)
    requires Plausible(parse)
    ensures SocksPacket(parse, b) == Some(p) <==> Relayable(parse, p) && BuildSocksUdp(p) == b
  {
    if SocksPacket(parse, b) == Some(p) {
      BuildUndoesParse(parse, b);
    } else if Relayable(parse, p) {
      ParseUndoesBuild(parse, p);
    }
  }

  /** `parseSOCKSUDP`: reads the address as a stream, then takes what the reader has left. */
  method ParseSocksUdp(parse: IpParser, b: seq<byte>) returns (res: Option<Packet>)
    ensures res == SocksPacket(parse, b)
  {
    if |b| < 4 { return None; }
    if b[0] != 0 || b[1] != 0 || b[2] != 0 { return None; }
    var r := new Reader(b[3..]);
    var addr := ReadAddress(parse, r);
    if addr.Err? { return None; }
    if addr.value.port == 0 || (addr.value.atyp == ATYP_DOMAIN && addr.value.host == []) { return None; }
    if |r.rest| > MAX_UDP_PAYLOAD { return None; }
    ghost var used := DecodeAddress(parse, b[3..]).value.1;
    assert b[3..][used..] == b[3 + used..];
    res := Some(Packet(addr.value, b[|b| - |r.rest|..]));
  }

  /** Any packet the local proxy accepts fits one tunnel datagram, is decoded by the far end to the
      same session, destination and payload, and rebuilds the very bytes that were received. */
  lemma SocksPacketCrossesTunnel(parse: IpParser, b: seq<byte>, p: Packet, sessionID: uint64)
    requires Plausible(parse) && SocksPacket(parse, b) == Some(p)
    ensures var wire := EncodeDatagram(Datagram(sessionID, p.addr, p.payload));
            && |wire| <= MAX_UDP_DATAGRAM
            && exists d :: DecodeDatagram(parse, wire) == Ok(d) && d.sessionID == sessionID
                        && BuildSocksUdp(Packet(d.addr, d.payload)) == b
  {
    SocksPacketExact(parse, b, p);
    var d := Datagram(sessionID, p.addr, p.payload);
    EnvelopeFits(parse, d);
    DatagramRoundTrip(parse, d);
  }
}
