/** The block format of internal/compress/compress.go: frames, the language of well-formed
    streams, and what the longest decodable prefix of arbitrary bytes is. */
module BlockFormat {
  import opened Bytes

  const BLOCK_SIZE: nat := 32768
  const MARKER_RAW: byte := 0
  const MARKER_FLATE: byte := 1

  /** What a DEFLATE reader makes of its input: the bytes it yields, whether it then reports the end
      of the stream rather than an error, and how much input it leaves unread. */
  datatype Inflated = Inflated(output: seq<byte>, ended: bool, unread: nat)

  /** DEFLATE itself is abstract. */
  datatype Codec = Codec(deflate: seq<byte> -> seq<byte>, inflate: seq<byte> -> Inflated)

  /** What is assumed of DEFLATE: inflating undoes deflating, consumes exactly its input, and a
      compressed block is never empty. */
  ghost predicate Faithful(c: Codec)
  {
    forall b :: c.deflate(b) != [] && c.inflate(c.deflate(b)) == Inflated(b, true, 0)
  }

  /** One block: the bytes it stands for and the bytes that carry them. */
  datatype Frame = Frame(mode: byte, raw: seq<byte>, data: seq<byte>)

  predicate WellFormed(c: Codec, f: Frame)
  {
    && 1 <= |f.raw| <= BLOCK_SIZE && 1 <= |f.data| <= BLOCK_SIZE
    && if f.mode == MARKER_RAW then f.data == f.raw
       else f.mode == MARKER_FLATE && c.inflate(f.data) == Inflated(f.raw, true, 0)
  }

  ghost predicate AllWellFormed(c: Codec, fs: seq<Frame>)
  {
    forall i :: 0 <= i < |fs| ==> WellFormed(c, fs[i])
  }

  /** The conversion `uint16(n)`. */
  function Low16(n: nat): uint16
  {
    if n < 0x1_0000 then n else n % 0x1_0000
  }

  function Header(mode: byte, rawLen: nat, encLen: nat): seq<byte>
  {
    [mode] + PutUint16(Low16(rawLen)) + PutUint16(Low16(encLen))
  }

  /** `[mode:1][raw length:2][encoded length:2][data]`. */
  function Wire(f: Frame): seq<byte>
  {
    Header(f.mode, |f.raw|, |f.data|) + f.data
  }

  function WireAll(fs: seq<Frame>): seq<byte>
  {
    if |fs| == 0 then [] else Wire(fs[0]) + WireAll(fs[1..])
  }

  function RawAll(fs: seq<Frame>): seq<byte>
  {
    if |fs| == 0 then [] else fs[0].raw + RawAll(fs[1..])
  }

  lemma WireAllCons(f: Frame, fs: seq<Frame>)
    ensures WireAll([f] + fs) == Wire(f) + WireAll(fs)
  {
    assert ([f] + fs)[1..] == fs;
  }

  lemma {:induction false} WireAllAppend(fs: seq<Frame>, gs: seq<Frame>)
    ensures WireAll(fs + gs) == WireAll(fs) + WireAll(gs)
  {
    if fs == [] {
      assert fs + gs == gs;
    } else {
      assert fs + gs == [fs[0]] + (fs[1..] + gs);
      WireAllCons(fs[0], fs[1..] + gs);
      WireAllAppend(fs[1..], gs);
      Assoc(Wire(fs[0]), WireAll(fs[1..]), WireAll(gs));
    }
  }

  lemma {:induction false} RawAllAppend(fs: seq<Frame>, gs: seq<Frame>)
    ensures RawAll(fs + gs) == RawAll(fs) + RawAll(gs)
  {
    if fs == [] {
      assert fs + gs == gs;
    } else {
      assert (fs + gs)[1..] == fs[1..] + gs;
      RawAllAppend(fs[1..], gs);
      Assoc(fs[0].raw, RawAll(fs[1..]), RawAll(gs));
    }
  }

  lemma WireAllSnoc(fs: seq<Frame>, f: Frame)
    ensures WireAll(fs + [f]) == WireAll(fs) + Wire(f)
    ensures RawAll(fs + [f]) == RawAll(fs) + f.raw
  {
    WireAllAppend(fs, [f]);
    RawAllAppend(fs, [f]);
    assert [f][1..] == [];
    assert WireAll([f]) == Wire(f) && RawAll([f]) == f.raw;
  }

  // ---- The frame at the front of arbitrary bytes ---------------------------------------------

  /** The bytes a block of `mode` and declared length `rawLen` decodes to, if it is valid. */
  function Payload(c: Codec, mode: byte, rawLen: nat, data: seq<byte>): Option<seq<byte>>
  {
    if mode == MARKER_RAW then (if rawLen == |data| then Some(data) else None)
    else if mode == MARKER_FLATE then
      (if c.inflate(data) == Inflated(c.inflate(data).output, true, 0) && |c.inflate(data).output| == rawLen
       then Some(c.inflate(data).output) else None)
    else None
  }

  predicate LegalLengths(rawLen: nat, encLen: nat)
  {
    1 <= rawLen <= BLOCK_SIZE && 1 <= encLen <= BLOCK_SIZE
  }

  /** The well-formed frame at the front of `src`, if there is one. */
  function FrameAt(c: Codec, src: seq<byte>): (r: Option<Frame>)
    ensures r.Some? ==> 5 + |r.value.data| <= |src| && r.value.data == src[5..5 + |r.value.data|]
  {
    if |src| < 5 then None
    else
      var rawLen: nat := GetUint16(src[1], src[2]);
      var encLen: nat := GetUint16(src[3], src[4]);
      if !LegalLengths(rawLen, encLen) || |src| < 5 + encLen then None
      else
        var data := src[5..5 + encLen];
        match Payload(c, src[0], rawLen, data)
        case None => None
        case Some(raw) => Some(Frame(src[0], raw, data))
  }

  lemma Reassemble(src: seq<byte>, n: nat)
    requires 5 + n <= |src|
    ensures src == [src[0]] + [src[1], src[2]] + [src[3], src[4]] + src[5..5 + n] + src[5 + n..]
  {
  }

  lemma HeaderInRange(mode: byte, rawLen: uint16, encLen: uint16)
    ensures Header(mode, rawLen, encLen) == [mode] + PutUint16(rawLen) + PutUint16(encLen)
  {
  }

  lemma HeaderBytes(src: seq<byte>)
    requires |src| >= 5
    ensures Header(src[0], GetUint16(src[1], src[2]), GetUint16(src[3], src[4])) == [src[0]] + [src[1], src[2]] + [src[3], src[4]]
  {
    HeaderInRange(src[0], GetUint16(src[1], src[2]), GetUint16(src[3], src[4]));
    PutUndoesGet(src[1], src[2]);
    PutUndoesGet(src[3], src[4]);
  }

  lemma FrameAtWellFormed(c: Codec, src: seq<byte>)
    requires FrameAt(c, src).Some?
    ensures var f := FrameAt(c, src).value;
            && WellFormed(c, f) && f.mode == src[0]
            && |f.raw| == GetUint16(src[1], src[2]) && |f.data| == GetUint16(src[3], src[4])
  {
  }

  lemma FrameAtSound(c: Codec, src: seq<byte>)
    requires FrameAt(c, src).Some?
    ensures var f := FrameAt(c, src).value; WellFormed(c, f) && src == Wire(f) + src[5 + |f.data|..]
  {
    FrameAtWellFormed(c, src);
    HeaderBytes(src);
    Reassemble(src, |FrameAt(c, src).value.data|);
  }

  lemma FrameAtComplete(c: Codec, f: Frame, tail: seq<byte>)
    requires WellFormed(c, f)
    ensures FrameAt(c, Wire(f) + tail) == Some(f)
    ensures (Wire(f) + tail)[5 + |f.data|..] == tail
  {
    var h := Header(f.mode, |f.raw|, |f.data|);
    var src := h + f.data + tail;
    Pieces(h, f.data, tail);
    assert src[0] == f.mode && [src[1], src[2]] == PutUint16(|f.raw|) && [src[3], src[4]] == PutUint16(|f.data|);
    assert src[5..5 + |f.data|] == f.data;
  }

  // ---- The longest well-formed prefix --------------------------------------------------------

  /** The frames a decoder reads from `src` before the bytes stop being a frame. */
  function Decodable(c: Codec, src: seq<byte>): seq<Frame>
    decreases |src|
  {
    match FrameAt(c, src)
    case None => []
    case Some(f) => [f] + Decodable(c, src[5 + |f.data|..])
  }

  lemma SoundStep(src: seq<byte>, w: seq<byte>, rest: seq<byte>, v: seq<byte>)
    requires src == w + rest && |v| <= |rest| && rest[..|v|] == v
    ensures |w + v| <= |src| && src[..|w + v|] == w + v
  {
  }

  lemma {:induction false} DecodableSound(c: Codec, src: seq<byte>)
    ensures AllWellFormed(c, Decodable(c, src))
    ensures |WireAll(Decodable(c, src))| <= |src| && src[..|WireAll(Decodable(c, src))|] == WireAll(Decodable(c, src))
    decreases |src|
  {
    if FrameAt(c, src).Some? {
      var f := FrameAt(c, src).value;
      var rest := src[5 + |f.data|..];
      FrameAtSound(c, src);
      DecodableSound(c, rest);
      WireAllCons(f, Decodable(c, rest));
      SoundStep(src, Wire(f), rest, WireAll(Decodable(c, rest)));
    }
  }

  lemma DecodableCons(c: Codec, f: Frame, rest: seq<byte>)
    requires WellFormed(c, f)
    ensures Decodable(c, Wire(f) + rest) == [f] + Decodable(c, rest)
  {
    FrameAtComplete(c, f, rest);
  }

  lemma DecodableStep(c: Codec, f: Frame, w: seq<byte>, gs: seq<Frame>, tail: seq<byte>)
    requires WellFormed(c, f) && Decodable(c, w + tail) == gs + Decodable(c, tail)
    ensures Decodable(c, Wire(f) + w + tail) == [f] + gs + Decodable(c, tail)
  {
    Assoc(Wire(f), w, tail);
    DecodableCons(c, f, w + tail);
  }

  /** No well-formed frame sequence at the front of `src` goes further: each one is a prefix of the
      frames the decoder reads. */
  lemma {:induction false} DecodableLongest(c: Codec, fs: seq<Frame>, tail: seq<byte>)
    requires AllWellFormed(c, fs)
    ensures Decodable(c, WireAll(fs) + tail) == fs + Decodable(c, tail)
  {
    if fs == [] {
      assert WireAll(fs) + tail == tail;
    } else {
      assert fs == [fs[0]] + fs[1..];
      DecodableLongest(c, fs[1..], tail);
      DecodableStep(c, fs[0], WireAll(fs[1..]), fs[1..], tail);
    }
  }

  /** A stream is accepted iff it is a concatenation of well-formed frames, and then it is so in
      exactly one way. */
  lemma StreamExact(c: Codec, src: seq<byte>, fs: seq<Frame>)
    ensures AllWellFormed(c, fs) && WireAll(fs) == src <==> fs == Decodable(c, src) && WireAll(Decodable(c, src)) == src
  {
    DecodableSound(c, src);
    if AllWellFormed(c, fs) && WireAll(fs) == src {
      DecodableLongest(c, fs, []);
      assert WireAll(fs) + [] == src;
      assert fs + Decodable(c, []) == fs;
    }
  }

  lemma PrefixOf(w: seq<byte>, v: seq<byte>)
    ensures |w| <= |w + v| && (w + v)[..|w|] == w && (w + v)[|w|..] == v
  {
  }

  /** The frames before a boundary carry the bytes before it. */
  lemma Boundary(fs: seq<Frame>, j: nat)
    requires j <= |fs|
    ensures |WireAll(fs[..j])| <= |WireAll(fs)| && WireAll(fs)[..|WireAll(fs[..j])|] == WireAll(fs[..j])
  {
    assert fs == fs[..j] + fs[j..];
    WireAllAppend(fs[..j], fs[j..]);
    PrefixOf(WireAll(fs[..j]), WireAll(fs[j..]));
  }

  /** If a prefix of a valid stream is itself valid, its frames are the first of the stream's. */
  lemma ValidPrefix(c: Codec, fs: seq<Frame>, gs: seq<Frame>, tail: seq<byte>)
    requires AllWellFormed(c, fs) && AllWellFormed(c, gs) && WireAll(gs) + tail == WireAll(fs)
    ensures gs <= fs
  {
    DecodableLongest(c, gs, tail);
    StreamExact(c, WireAll(fs), fs);
  }

  ghost predicate IsStream(c: Codec, src: seq<byte>)
  {
    exists gs :: AllWellFormed(c, gs) && WireAll(gs) == src
  }

  ghost predicate OnBoundary(fs: seq<Frame>, cut: nat)
  {
    exists j :: 0 <= j <= |fs| && |WireAll(fs[..j])| == cut
  }

  lemma StreamCutOnBoundary(c: Codec, fs: seq<Frame>, gs: seq<Frame>, cut: nat)
    requires AllWellFormed(c, fs) && AllWellFormed(c, gs)
    requires cut <= |WireAll(fs)| && WireAll(gs) == WireAll(fs)[..cut]
    ensures OnBoundary(fs, cut)
  {
    ValidPrefix(c, fs, gs, WireAll(fs)[cut..]);
    assert gs == fs[..|gs|];
  }

  /** A cut of a valid stream is a valid stream iff the cut falls on a frame boundary. */
  lemma CutExact(c: Codec, fs: seq<Frame>, cut: nat)
    requires AllWellFormed(c, fs) && cut <= |WireAll(fs)|
    ensures IsStream(c, WireAll(fs)[..cut]) <==> OnBoundary(fs, cut)
  {
    if IsStream(c, WireAll(fs)[..cut]) {
      var gs :| AllWellFormed(c, gs) && WireAll(gs) == WireAll(fs)[..cut];
      StreamCutOnBoundary(c, fs, gs, cut);
    }
    if OnBoundary(fs, cut) {
      var j :| 0 <= j <= |fs| && |WireAll(fs[..j])| == cut;
      Boundary(fs, j);
      assert AllWellFormed(c, fs[..j]);
    }
  }
}
