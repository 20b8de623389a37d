/** The stream request header and the UDP datagram envelope of internal/protocol/frame.go. */
module Frame {
  import opened Bytes
  import opened Address

  const VERSION: byte := 2
  const MAX_UDP_PAYLOAD: nat := 850
  const MAX_UDP_DATAGRAM: nat := 1120

  type uint64 = n: int | 0 <= n < 0x1_0000_0000_0000_0000

  // ---- Base-128 varints of encoding/binary --------------------------------------------------

  /** `binary.AppendUvarint(nil, x)`. */
  function AppendUvarint(x: nat): (bs: seq<byte>)
    ensures bs != []
  {
    if x < 128 then [x] else [128 + x % 128] + AppendUvarint(x / 128)
  }

  /** `binary.Uvarint` from byte index `i` on: the value and the bytes used, or None when the
      input ends early or overflows 64 bits. Leading-zero groups are accepted. */
  function Uvarint(buf: seq<byte>, i: nat): (res: Option<(nat, nat)>)
    ensures res.Some? ==> 1 <= res.value.1 <= |buf|
  {
    if buf == [] || i == 10 then None
    else if buf[0] < 128 then
      if i == 9 && buf[0] > 1 then None else Some((buf[0], 1))
    else
      match Uvarint(buf[1..], i + 1)
      case None => None
      case Some((v, used)) => Some((buf[0] - 128 + 128 * v, used + 1))
  }

  /** One more than the largest value that bytes `i` to 9 can add before the 64-bit limit. */
  function Cap(i: nat): (n: nat)
    requires i <= 9
    ensures n >= 2
    decreases 9 - i
  {
    if i == 9 then 2 else 128 * Cap(i + 1)
  }

  lemma CapIs64Bits()
    ensures Cap(0) == 0x1_0000_0000_0000_0000
  {
    assert Cap(8) == 256;
    assert Cap(7) == 128 * 256;
    assert Cap(6) == 128 * 128 * 256;
    assert Cap(5) == 128 * 128 * 128 * 256;
    assert Cap(4) == 128 * Cap(5);
    assert Cap(3) == 128 * Cap(4);
    assert Cap(2) == 128 * Cap(3);
    assert Cap(1) == 128 * Cap(2);
  }

  lemma {:induction false} UvarintUndoesAppend(x: nat, i: nat, tail: seq<byte>)
    requires i <= 9 && x < Cap(i)
    ensures Uvarint(AppendUvarint(x) + tail, i) == Some((x, |AppendUvarint(x)|))
    ensures |AppendUvarint(x)| <= 10 - i
  {
    var buf := AppendUvarint(x) + tail;
    if x >= 128 {
      assert i < 9;
      UvarintUndoesAppend(x / 128, i + 1, tail);
      assert buf[1..] == AppendUvarint(x / 128) + tail;
    }
  }

  /** Whatever varint was read, its value fits 64 bits and its shortest form is no longer. */
  lemma {:induction false} UvarintBounded(buf: seq<byte>, i: nat)
    requires i <= 9 && Uvarint(buf, i).Some?
    ensures var (v, used) := Uvarint(buf, i).value;
            v < Cap(i) && |AppendUvarint(v)| <= used
  {
    if buf[0] >= 128 {
      assert Uvarint(buf[1..], i + 1).Some?;
      UvarintBounded(buf[1..], i + 1);
    } else if i < 9 {
      assert Cap(i) == 128 * Cap(i + 1);
    }
  }

  /** How the bytes of an accepted varint depend on nothing after them. */
  lemma {:induction false} UvarintLocal(buf: seq<byte>, i: nat, tail: seq<byte>)
    requires Uvarint(buf, i).Some?
    ensures Uvarint(buf + tail, i) == Uvarint(buf, i)
  {
    if buf[0] >= 128 {
      assert (buf + tail)[1..] == buf[1..] + tail;
      UvarintLocal(buf[1..], i + 1, tail);
    }
  }

  // ---- Datagram envelope --------------------------------------------------------------------

  datatype Datagram = Datagram(sessionID: uint64, addr: Address, payload: seq<byte>)

  /** `EncodeDatagram`. */
  function EncodeDatagram(d: Datagram): seq<byte>
  {
    [VERSION] + AppendUvarint(d.sessionID) + Encode(d.addr) + d.payload
  }

  /** `binary.Uvarint`: the value and the number of bytes it took. */
  function SessionId(buf: seq<byte>): (r: Option<(uint64, nat)>)
    ensures r.Some? ==> r.value.1 <= |buf|
  {
    match Uvarint(buf, 0)
    case None => None
    case Some((sid, n)) =>
      UvarintBounded(buf, 0);
      CapIs64Bits();
      Some((sid, n))
  }

  lemma SessionIdIs(buf: seq<byte>)
    ensures SessionId(buf) == Uvarint(buf, 0)
  {
  }

  /** What is left of `DecodeDatagram` once the address at `off` was decoded. */
  function Opened(buf: seq<byte>, sid: uint64, off: nat, res: Result<(Address, nat)>): Result<Datagram>
    requires res.Ok? ==> off + res.value.1 <= |buf|
  {
    match res
    case Err(e) => Err(e)
    case Ok((addr, used)) =>
      if |buf| - (off + used) > MAX_UDP_PAYLOAD then Err(Malformed)
      else Ok(Datagram(sid, addr, buf[off + used..]))
  }

  /** `DecodeDatagram`. */
  function DecodeDatagram(parse: IpParser, buf: seq<byte>): Result<Datagram>
  {
    if |buf| < 2 || |buf| > MAX_UDP_DATAGRAM || buf[0] != VERSION then Err(Malformed)
    else
      match SessionId(buf[1..])
      case None => Err(Malformed)
      case Some((sid, n)) =>
        Opened(buf, sid, 1 + n, DecodeAddress(parse, buf[1 + n..]))
  }

  /** The envelope of a valid address and a legal payload leaves one byte to spare. */
  lemma EnvelopeFits(parse: IpParser, d: Datagram)
    requires Plausible(parse) && Validate(parse, d.addr) && |d.payload| <= MAX_UDP_PAYLOAD
    ensures |EncodeDatagram(d)| <= MAX_UDP_DATAGRAM - 1
  {
    CapIs64Bits();
    UvarintUndoesAppend(d.sessionID, 0, []);
    if d.addr.atyp == ATYP_DOMAIN {
      ValidHostIsShort(parse, d.addr);
    }
  }

  lemma EnvelopeParts(v: seq<byte>, enc: seq<byte>, payload: seq<byte>)
    ensures var buf := [VERSION] + v + enc + payload;
            && buf[1..] == v + (enc + payload)
            && buf[1 + |v|..] == enc + payload
            && buf[1 + |v| + |enc|..] == payload
  {
  }

  /** Some spelling `v` of the session id followed by the address and the payload. */
  ghost predicate Spells(buf: seq<byte>, v: seq<byte>, d: Datagram)
  {
    Uvarint(v, 0) == Some((d.sessionID, |v|)) && buf == [VERSION] + v + Encode(d.addr) + d.payload
  }

  lemma Reassemble(buf: seq<byte>, n: nat, used: nat)
    requires 1 + n + used <= |buf|
    ensures buf == [buf[0]] + buf[1..][..n] + buf[1 + n..][..used] + buf[1 + n + used..]
  {
  }

  lemma DatagramSound(parse: IpParser, buf: seq<byte>) returns (v: seq<byte>)
    requires DecodeDatagram(parse, buf).Ok?
    ensures var d := DecodeDatagram(parse, buf).value;
            && |buf| <= MAX_UDP_DATAGRAM && |d.payload| <= MAX_UDP_PAYLOAD
            && Validate(parse, d.addr) && Canon(d.addr) == d.addr && Spells(buf, v, d)
  {
    var d := DecodeDatagram(parse, buf).value;
    var n := Uvarint(buf[1..], 0).value.1;
    v := buf[1..][..n];
    UvarintPrefix(buf[1..], 0);
    EncodeUndoesDecode(parse, buf[1 + n..]);
    Reassemble(buf, n, DecodeAddress(parse, buf[1 + n..]).value.1);
  }

  lemma AfterAddress(buf: seq<byte>, sid: uint64, n: nat, addr: Address, used: nat)
    requires 1 + n + used <= |buf| && |buf| - (1 + n + used) <= MAX_UDP_PAYLOAD
    ensures Opened(buf, sid, 1 + n, Ok((addr, used))) == Ok(Datagram(sid, addr, buf[1 + n + used..]))
  {
  }

  lemma AfterSession(parse: IpParser, buf: seq<byte>, sid: uint64, n: nat)
    requires 2 <= |buf| <= MAX_UDP_DATAGRAM && buf[0] == VERSION && SessionId(buf[1..]) == Some((sid, n))
    ensures 1 + n <= |buf| && DecodeDatagram(parse, buf) == Opened(buf, sid, 1 + n, DecodeAddress(parse, buf[1 + n..]))
  {
  }

  /** The decoder on a buffer whose pieces are known. */
  lemma DecodesTo(parse: IpParser, buf: seq<byte>, tail: seq<byte>, body: seq<byte>, sid: uint64, n: nat, addr: Address, used: nat)
    requires 2 <= |buf| <= MAX_UDP_DATAGRAM && buf[0] == VERSION && 1 + n <= |buf|
    requires tail == buf[1..] && SessionId(tail) == Some((sid, n))
    requires body == buf[1 + n..] && DecodeAddress(parse, body) == Ok((addr, used))
    requires |buf| - (1 + n + used) <= MAX_UDP_PAYLOAD
    ensures 1 + n + used <= |buf| && DecodeDatagram(parse, buf) == Ok(Datagram(sid, addr, buf[1 + n + used..]))
  {
    AfterSession(parse, buf, sid, n);
    AfterAddress(buf, sid, n, addr, used);
  }

  lemma AddressThenPayload(parse: IpParser, a: Address, payload: seq<byte>)
    requires Plausible(parse) && Validate(parse, a) && Canon(a) == a
    ensures DecodeAddress(parse, Encode(a) + payload) == Ok((a, |Encode(a)|))
  {
    DecodeUndoesEncode(parse, a, payload);
  }

  lemma DatagramComplete(parse: IpParser, buf: seq<byte>, v: seq<byte>, d: Datagram)
    requires Plausible(parse) && Validate(parse, d.addr) && Canon(d.addr) == d.addr
    requires |buf| <= MAX_UDP_DATAGRAM && |d.payload| <= MAX_UDP_PAYLOAD && Spells(buf, v, d)
    ensures DecodeDatagram(parse, buf) == Ok(d)
  {
    AddressThenPayload(parse, d.addr, d.payload);
    FromPieces(parse, buf, v, Encode(d.addr), d);
  }

  lemma FromPieces(parse: IpParser, buf: seq<byte>, v: seq<byte>, enc: seq<byte>, d: Datagram)
    requires |buf| <= MAX_UDP_DATAGRAM && |d.payload| <= MAX_UDP_PAYLOAD
    requires Uvarint(v, 0) == Some((d.sessionID, |v|)) && buf == [VERSION] + v + enc + d.payload
    requires DecodeAddress(parse, enc + d.payload) == Ok((d.addr, |enc|))
    ensures DecodeDatagram(parse, buf) == Ok(d)
  {
    EnvelopeParts(v, enc, d.payload);
    UvarintLocal(v, 0, enc + d.payload);
    NotEmpty(v);
    SessionIdIs(v + (enc + d.payload));
    DecodesTo(parse, buf, v + (enc + d.payload), enc + d.payload, d.sessionID, |v|, d.addr, |enc|);
  }

  lemma NotEmpty(v: seq<byte>)
    requires Uvarint(v, 0).Some?
    ensures v != []
  {
  }

  /** Any valid address, 64-bit session and legal payload crosses the tunnel unchanged, up to
      the 4/16-byte form of the IP address. */
  lemma DatagramRoundTrip(parse: IpParser, d: Datagram)
    requires Plausible(parse) && Validate(parse, d.addr) && |d.payload| <= MAX_UDP_PAYLOAD
    ensures DecodeDatagram(parse, EncodeDatagram(d)) == Ok(d.(addr := Canon(d.addr)))
  {
    var v := AppendUvarint(d.sessionID);
    EnvelopeFits(parse, d);
    CapIs64Bits();
    UvarintUndoesAppend(d.sessionID, 0, []);
    assert v + [] == v;
    DecodeUndoesEncode(parse, d.addr, d.payload);
    FromPieces(parse, EncodeDatagram(d), v, Encode(d.addr), d.(addr := Canon(d.addr)));
  }

  /** The decoder accepts exactly: the version, some varint spelling of the session, the encoding of
      a valid canonical address, a legal payload, within the datagram limit. */
  lemma DatagramExact(parse: IpParser, buf: seq<byte>, d: Datagram)
    requires Plausible(parse)
    ensures DecodeDatagram(parse, buf) == Ok(d) <==>
            && |buf| <= MAX_UDP_DATAGRAM && |d.payload| <= MAX_UDP_PAYLOAD
            && Validate(parse, d.addr) && Canon(d.addr) == d.addr
            && exists v :: Spells(buf, v, d)
  {
    if DecodeDatagram(parse, buf) == Ok(d) {
      var v := DatagramSound(parse, buf);
    } else if |buf| <= MAX_UDP_DATAGRAM && |d.payload| <= MAX_UDP_PAYLOAD && Validate(parse, d.addr) && Canon(d.addr) == d.addr {
      forall v | Spells(buf, v, d) ensures false {
        DatagramComplete(parse, buf, v, d);
      }
    }
  }

  lemma {:induction false} UvarintPrefix(buf: seq<byte>, i: nat)
    requires Uvarint(buf, i).Some?
    ensures var (v, used) := Uvarint(buf, i).value; Uvarint(buf[..used], i) == Some((v, used))
  {
    var (v, used) := Uvarint(buf, i).value;
    if buf[0] >= 128 {
      UvarintPrefix(buf[1..], i + 1);
      assert buf[..used][1..] == buf[1..][..used - 1];
    }
  }

  lemma ReencodeShorter(parse: IpParser, buf: seq<byte>)
    requires DecodeDatagram(parse, buf).Ok?
    ensures |EncodeDatagram(DecodeDatagram(parse, buf).value)| <= |buf|
  {
    var d := DecodeDatagram(parse, buf).value;
    var v := DatagramSound(parse, buf);
    UvarintBounded(v, 0);
  }

  /** Re-encoding what was decoded is never longer and decodes to the same value, even when the
      session id came as a non-canonical varint. */
  lemma ReencodeStable(parse: IpParser, buf: seq<byte>)
    requires Plausible(parse) && DecodeDatagram(parse, buf).Ok?
    ensures var d := DecodeDatagram(parse, buf).value;
            && |EncodeDatagram(d)| <= |buf|
            && DecodeDatagram(parse, EncodeDatagram(d)) == Ok(d)
  {
    var d := DecodeDatagram(parse, buf).value;
    ReencodeShorter(parse, buf);
    var v := DatagramSound(parse, buf);
    DatagramRoundTrip(parse, d);
  }

  // ---- Stream request -----------------------------------------------------------------------

  datatype StreamRequest = StreamRequest(cmd: byte, flags: byte, addr: Address)

  /** The single buffer `StreamRequest.WriteTo` writes, or None when the address is invalid. */
  function EncodeRequest(parse: IpParser, rq: StreamRequest): Option<seq<byte>>
  {
    if Validate(parse, rq.addr) then Some([VERSION, rq.cmd, rq.flags] + Encode(rq.addr)) else None
  }

  /** The request at the front of `buf` and the bytes it takes. */
  function DecodeRequest(parse: IpParser, buf: seq<byte>): (res: Option<(StreamRequest, nat)>)
    ensures res.Some? ==> res.value.1 <= |buf|
  {
    if |buf| < 3 || buf[0] != VERSION then None
    else
      match DecodeAddress(parse, buf[3..])
      case Err(_) => None
      case Ok((addr, used)) => Some((StreamRequest(buf[1], buf[2], addr), 3 + used))
  }

  /** A request is read back whatever payload follows it, and none of that payload is taken. */
  lemma RequestRoundTrip(parse: IpParser, rq: StreamRequest, payload: seq<byte>)
    requires Plausible(parse) && EncodeRequest(parse, rq).Some?
    ensures var wire := EncodeRequest(parse, rq).value;
            DecodeRequest(parse, wire + payload) == Some((rq.(addr := Canon(rq.addr)), |wire|))
  {
    Pieces([VERSION, rq.cmd, rq.flags], Encode(rq.addr), payload);
    DecodeUndoesEncode(parse, rq.addr, payload);
  }

  /** Only encodings of valid requests are accepted. */
  lemma RequestSound(parse: IpParser, buf: seq<byte>)
    requires DecodeRequest(parse, buf).Some?
    ensures var (rq, n) := DecodeRequest(parse, buf).value;
            EncodeRequest(parse, rq) == Some(buf[..n]) && Canon(rq.addr) == rq.addr
  {
    var (rq, n) := DecodeRequest(parse, buf).value;
    EncodeUndoesDecode(parse, buf[3..]);
    assert buf[..n] == [buf[0], buf[1], buf[2]] + buf[3..][..n - 3];
  }

  /** `ReadStreamRequest` accepts what `DecodeRequest` accepts and leaves exactly the bytes after the
      request for the relay. */
  method ReadStreamRequest(parse: IpParser, r: Reader) returns (res: Result<StreamRequest>)
    modifies r
    ensures res.Ok? <==> DecodeRequest(parse, old(r.rest)).Some?
    ensures res.Ok? ==>
              var (rq, n) := DecodeRequest(parse, old(r.rest)).value;
              res.value == rq && r.rest == old(r.rest)[n..]
  {
    ghost var start := r.rest;
    var hdr := r.ReadFull(3);
    if hdr.Err? { return Err(hdr.error); }
    assert hdr.value == start[..3] && r.rest == start[3..];
    if hdr.value[0] != VERSION { return Err(Malformed); }
    var addr := ReadAddress(parse, r);
    if addr.Err? { return Err(addr.error); }
    res := Ok(StreamRequest(hdr.value[1], hdr.value[2], addr.value));
    ghost var used := DecodeAddress(parse, start[3..]).value.1;
    assert start[3..][used..] == start[3 + used..];
  }
}
