/** Bytes, 16-bit big-endian integers and the result types shared by every module. */
module Bytes {

  type byte = b: int | 0 <= b < 256

  type uint16 = n: int | 0 <= n < 0x1_0000

  datatype Option<+T> = None | Some(value: T)

  /** Read errors of `io.ReadFull` and of the address decoders. */
  datatype ReadError = Eof | UnexpectedEof | Malformed

  datatype Result<+T> = Ok(value: T) | Err(error: ReadError)

  /** All but the last element; nothing of nothing. */
  function Init<T>(s: seq<T>): seq<T>
  {
    if |s| == 0 then s else s[..|s| - 1]
  }

  function Last<T>(s: seq<T>): T
    requires |s| > 0
  {
    s[|s| - 1]
  }

  /** The number that bytes spell in network order, the most significant first. */
  function Number(s: seq<byte>): nat
  {
    if |s| == 0 then 0 else 256 * Number(Init(s)) + Last(s)
  }

  lemma NumberOfTwo(hi: byte, lo: byte)
    ensures Number([hi, lo]) == 256 * hi + lo
  {
    assert Init([hi, lo]) == [hi] && |Init([hi])| == 0;
    assert Number([hi]) == hi;
  }

  /** `binary.BigEndian.PutUint16`. */
  function PutUint16(n: uint16): (bs: seq<byte>)
    ensures |bs| == 2 && Number(bs) == n && GetUint16(bs[0], bs[1]) == n
  {
    NumberOfTwo(n / 256, n % 256);
    [n / 256, n % 256]
  }

  /** `binary.BigEndian.Uint16`. */
  function GetUint16(hi: byte, lo: byte): (n: uint16)
    ensures n == Number([hi, lo])
  {
    NumberOfTwo(hi, lo);
    hi * 256 + lo
  }

  lemma PutUndoesGet(hi: byte, lo: byte)
    ensures PutUint16(GetUint16(hi, lo)) == [hi, lo]
  {
  }

  lemma Assoc(a: seq<byte>, b: seq<byte>, c: seq<byte>)
    ensures a + b + c == a + (b + c)
  {
  }

  /** Where the pieces of a three-part message sit. */
  lemma Pieces(a: seq<byte>, b: seq<byte>, c: seq<byte>)
    ensures (a + b + c)[..|a|] == a
    ensures (a + b + c)[|a|..] == b + c
    ensures (a + b + c)[|a| + |b|..] == c
  {
  }

  /** A reader whose remaining bytes are known; however the bytes are chunked,
      `io.ReadFull` sees only this. */
  class Reader {
    var rest: seq<byte>

    constructor (bytes: seq<byte>)
      ensures rest == bytes
    {
      rest := bytes;
    }

    /** `io.ReadFull(r, make([]byte, n))`: all of `n` bytes, or an error that has drained the reader. */
    method ReadFull(n: nat) returns (res: Result<seq<byte>>)
      modifies this
      ensures res.Ok? <==> n <= |old(rest)|
      ensures res.Ok? ==> res.value == old(rest)[..n] && rest == old(rest)[n..]
      ensures res.Err? ==> rest == [] && res.error == if old(rest) == [] then Eof else UnexpectedEof
    {
      if n <= |rest| {
        res := Ok(rest[..n]);
        rest := rest[n..];
      } else {
        res := Err(if rest == [] then Eof else UnexpectedEof);
        rest := [];
      }
    }
  }
}
