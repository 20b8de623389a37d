/** The bytes on the wire, field by field: addresses and stream requests (internal/protocol), the datagram envelope with
    its varint, and compressed blocks (internal/compress/compress.go). */
module WireLayout {
  import opened Bytes
  import opened Address
  import opened Frame
  import Blocks = BlockFormat

  // ---- Addresses -----------------------------------------------------------------------------

  /** The short form of an address stands for the same address. */
  lemma ShortIsSame(ip: Ip)
    requires To4(ip).Some?
    ensures To16(To4(ip).value) == To16(ip)
  {
    if |ip| == 16 {
      assert V4_IN_V6 + ip[12..] == ip;
    }
  }

  lemma LongIsSame(ip: Ip)
    requires To16(ip).Some?
    ensures To16(To16(ip).value) == To16(ip)
  {
  }

  lemma Parts(atyp: byte, body: seq<byte>, port: seq<byte>)
    requires |port| == 2
    ensures var w := [atyp] + body + port;
            |w| == 3 + |body| && w[0] == atyp && w[1..|w| - 2] == body && w[|w| - 2..] == port
  {
  }

  lemma EncodeParts(a: Address)
    requires a.atyp == ATYP_IPV4 || a.atyp == ATYP_IPV6 || a.atyp == ATYP_DOMAIN
    ensures var w := Encode(a);
            |w| == 3 + |Body(a)| && w[0] == a.atyp && w[1..|w| - 2] == Body(a) && Number(w[|w| - 2..]) == a.port
  {
    Parts(a.atyp, Body(a), PutUint16(a.port));
  }

  /** The address form of section 5 of RFC 1928: the type, 4 bytes, 16 bytes or a counted name, and the port in
      network order. */
  lemma AddressLayout(parse: IpParser, a: Address)
    requires Plausible(parse) && Validate(parse, a)
    ensures var w := Encode(a);
            && |w| >= 4 && w[0] == a.atyp && Number(w[|w| - 2..]) == a.port
            && (w[0] == 1 ==> |w| == 7 && To16(w[1..5]) == To16(a.ip))
            && (w[0] == 4 ==> |w| == 19 && To16(w[1..17]) == To16(a.ip))
            && (w[0] != 1 && w[0] != 4 ==> w[0] == 3 && |w| == 4 + |a.host| && w[1..|w| - 2] == [|a.host|] + a.host)
  {
    EncodeParts(a);
    if a.atyp == ATYP_DOMAIN {
      ValidHostIsShort(parse, a);
    } else if a.atyp == ATYP_IPV4 {
      ShortIsSame(a.ip);
    } else {
      LongIsSame(a.ip);
    }
  }

  /** A stream request: the version, the command, the flags, the address. */
  lemma RequestLayout(parse: IpParser, rq: StreamRequest)
    requires EncodeRequest(parse, rq).Some?
    ensures var w := EncodeRequest(parse, rq).value;
            |w| >= 3 && w[0] == 2 && w[1] == rq.cmd && w[2] == rq.flags && w[3..] == Encode(rq.addr)
  {
  }

  // ---- Varints -------------------------------------------------------------------------------

  /** Seven bits a byte, the lowest first. */
  function Groups(v: seq<byte>): nat
  {
    if |v| == 0 then 0 else v[0] % 128 + 128 * Groups(v[1..])
  }

  /** Every byte but the last has its top bit set. */
  predicate Continued(v: seq<byte>)
  {
    |v| > 0 && v[|v| - 1] < 128 && forall i :: 0 <= i < |v| - 1 ==> v[i] >= 128
  }

  lemma ContinuedTail(v: seq<byte>)
    requires |v| > 1
    ensures Continued(v) <==> v[0] >= 128 && Continued(v[1..])
  {
    if v[0] >= 128 && Continued(v[1..]) {
      forall i | 0 <= i < |v| - 1 ensures v[i] >= 128 {
        if i > 0 { assert v[i] == v[1..][i - 1]; }
      }
    }
  }

  lemma GroupsOne(v: seq<byte>)
    requires |v| == 1 && v[0] < 128
    ensures Groups(v) == v[0]
  {
    assert |v[1..]| == 0;
  }

  lemma CapStep(low: nat, y: nat, cap: nat)
    requires low < 128
    ensures low + 128 * y < 128 * cap <==> y < cap
  {
  }

  lemma {:induction false} UvarintFrom(v: seq<byte>, i: nat, x: nat)
    requires i <= 9
    ensures Uvarint(v, i) == Some((x, |v|)) <==> Continued(v) && |v| <= 10 - i && Groups(v) == x < Cap(i)
    decreases |v|
  {
    if |v| == 0 {
    } else if v[0] < 128 {
      UvarintLast(v, i, x);
    } else if i == 9 {
      if |v| == 1 { assert !Continued(v); }
    } else if |v| == 1 {
      assert Uvarint(v[1..], i + 1).None?;
    } else {
      UvarintMore(v, i, x);
    }
  }

  lemma UvarintLast(v: seq<byte>, i: nat, x: nat)
    requires i <= 9 && |v| > 0 && v[0] < 128
    ensures Uvarint(v, i) == Some((x, |v|)) <==> Continued(v) && |v| <= 10 - i && Groups(v) == x < Cap(i)
  {
    if |v| == 1 {
      GroupsOne(v);
      if i < 9 { assert Cap(i) == 128 * Cap(i + 1); }
    }
  }

  /** What `Uvarint` does with a byte that goes on. */
  lemma UvarintGoesOn(v: seq<byte>, rest: seq<byte>, i: nat, x: nat)
    requires |v| > 1 && v[0] >= 128 && i < 9 && rest == v[1..]
    ensures Uvarint(v, i) == Some((x, |v|)) <==>
            Uvarint(rest, i + 1).Some? && Uvarint(rest, i + 1).value.1 == |rest| && x == v[0] - 128 + 128 * Uvarint(rest, i + 1).value.0
  {
  }

  lemma GroupsMore(v: seq<byte>, rest: seq<byte>)
    requires |v| > 1 && v[0] >= 128 && rest == v[1..]
    ensures Groups(v) == v[0] - 128 + 128 * Groups(rest)
  {
  }

  lemma UvarintMore(v: seq<byte>, i: nat, x: nat)
    requires i < 9 && |v| > 1 && v[0] >= 128
    ensures Uvarint(v, i) == Some((x, |v|)) <==> Continued(v) && |v| <= 10 - i && Groups(v) == x < Cap(i)
    decreases |v|, 0
  {
    var rest := v[1..];
    var y := Groups(rest);
    UvarintGoesOn(v, rest, i, x);
    GroupsMore(v, rest);
    ContinuedTail(v);
    CapStep(v[0] - 128, y, Cap(i + 1));
    UvarintFrom(rest, i + 1, y);
    if Uvarint(rest, i + 1).Some? {
      UvarintFrom(rest, i + 1, Uvarint(rest, i + 1).value.0);
    }
  }

  /** A byte string is a spelling of `x` exactly if it has one to ten bytes, the top bit marks all but the last, the
      other bits make up `x`, and `x` fits 64 bits. */
  lemma UvarintExactly(v: seq<byte>, x: nat)
    ensures Uvarint(v, 0) == Some((x, |v|)) <==>
            Continued(v) && |v| <= 10 && Groups(v) == x < 0x1_0000_0000_0000_0000
  {
    CapIs64Bits();
    UvarintFrom(v, 0, x);
  }

  // ---- Envelope and blocks -------------------------------------------------------------------

  /** The envelope: the version, a spelling of the session, the address, the payload; at most 850 bytes of it make
      at most 1119. */
  lemma EnvelopeLayout(parse: IpParser, d: Datagram) returns (v: seq<byte>)
    requires Plausible(parse) && Validate(parse, d.addr)
    ensures EncodeDatagram(d) == [2] + v + Encode(d.addr) + d.payload && Continued(v) && Groups(v) == d.sessionID
    ensures |d.payload| <= 850 ==> |EncodeDatagram(d)| <= 1119
  {
    v := AppendUvarint(d.sessionID);
    CapIs64Bits();
    UvarintUndoesAppend(d.sessionID, 0, []);
    assert v + [] == v;
    UvarintExactly(v, d.sessionID);
    if |d.payload| <= 850 { EnvelopeFits(parse, d); }
  }

  /** A block: the mode, both lengths in network order, and the data, which is the block itself or deflates from it. */
  lemma BlockLayout(c: Blocks.Codec, f: Blocks.Frame)
    requires Blocks.WellFormed(c, f)
    ensures var w := Blocks.Wire(f);
            && |w| == 5 + |f.data| && w[0] == f.mode && Number(w[1..3]) == |f.raw| && Number(w[3..5]) == |f.data|
            && w[5..] == f.data && 1 <= |f.raw| <= 32768 && 1 <= |f.data| <= 32768
            && (f.mode == 0 ==> f.data == f.raw)
            && (f.mode != 0 ==> f.mode == 1 && c.inflate(f.data) == Blocks.Inflated(f.raw, true, 0))
  {
    var w := Blocks.Wire(f);
    Blocks.HeaderInRange(f.mode, |f.raw|, |f.data|);
    assert w[1..3] == PutUint16(|f.raw|) && w[3..5] == PutUint16(|f.data|);
  }

  /** And every such block is legal. */
  lemma BlockLegal(c: Blocks.Codec, f: Blocks.Frame)
    ensures Blocks.WellFormed(c, f) <==>
            && 1 <= |f.raw| <= 32768 && 1 <= |f.data| <= 32768
            && ((f.mode == 0 && f.data == f.raw) || (f.mode == 1 && c.inflate(f.data) == Blocks.Inflated(f.raw, true, 0)))
  {
  }
}
