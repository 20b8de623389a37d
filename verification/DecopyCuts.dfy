/** What `Decopy` reports when a valid stream is cut (internal/compress/compress.go). */
module DecopyCuts {
  import opened Bytes
  import opened BlockFormat
  import opened Compress

  /** The boundary at or before a cut. */
  lemma {:induction false} LastBoundary(fs: seq<Frame>, n: nat, cut: nat) returns (j: nat)
    requires n <= |fs| && cut <= |WireAll(fs[..n])|
    ensures j <= n && |WireAll(fs[..j])| <= cut
    ensures j < n ==> cut < |WireAll(fs[..j])| + |Wire(fs[j])|
    ensures j == n ==> cut == |WireAll(fs[..n])|
    decreases n
  {
    if cut == |WireAll(fs[..n])| {
      j := n;
    } else {
      assert fs[..0] == [];
      assert fs[..n] == fs[..n - 1] + [fs[n - 1]];
      WireAllSnoc(fs[..n - 1], fs[n - 1]);
      if cut >= |WireAll(fs[..n - 1])| {
        j := n - 1;
      } else {
        j := LastBoundary(fs, n - 1, cut);
      }
    }
  }

  /** The bytes up to a cut inside frame `j`. */
  lemma CutInside(fs: seq<Frame>, j: nat, m: nat)
    requires j < |fs| && m < |Wire(fs[j])|
    ensures |WireAll(fs[..j])| + m <= |WireAll(fs)|
    ensures WireAll(fs)[..|WireAll(fs[..j])| + m] == WireAll(fs[..j]) + Wire(fs[j])[..m]
  {
    assert fs == fs[..j] + ([fs[j]] + fs[j + 1..]);
    WireAllAppend(fs[..j], [fs[j]] + fs[j + 1..]);
    WireAllCons(fs[j], fs[j + 1..]);
    TakeInside(WireAll(fs[..j]), Wire(fs[j]), WireAll(fs[j + 1..]), m);
  }

  lemma TakeInside(x: seq<byte>, y: seq<byte>, z: seq<byte>, m: nat)
    requires m < |y|
    ensures (x + (y + z))[..|x| + m] == x + y[..m]
  {
  }

  /** Part of a frame is refused as cut short: after the header alone with the plain end of file. */
  lemma PartTruncated(c: Codec, f: Frame, m: nat)
    requires WellFormed(c, f) && 0 < m < |Wire(f)|
    ensures Refusal(Wire(f)[..m], false) == Truncated(m == 5)
  {
    HeaderInRange(f.mode, |f.raw|, |f.data|);
    var part := Wire(f)[..m];
    if m >= 5 {
      assert [part[1], part[2]] == PutUint16(|f.raw|) && [part[3], part[4]] == PutUint16(|f.data|);
    }
  }

  lemma InsideTruncated(c: Codec, fs: seq<Frame>, j: nat, m: nat)
    requires AllWellFormed(c, fs) && j < |fs| && 0 < m < |Wire(fs[j])|
    ensures var src := WireAll(fs[..j]) + Wire(fs[j])[..m];
            && Decodable(c, src) == fs[..j] && src[|WireAll(fs[..j])|..] == Wire(fs[j])[..m]
  {
    var part := Wire(fs[j])[..m];
    DecodableLongest(c, fs[..j], part);
    PartIsNoFrame(c, fs[j], m);
    assert Decodable(c, part) == [];
    assert fs[..j] + [] == fs[..j];
    PrefixOf(WireAll(fs[..j]), part);
  }

  lemma InsideFrame(fs: seq<Frame>, cut: nat) returns (j: nat, m: nat)
    requires cut <= |WireAll(fs)| && !OnBoundary(fs, cut)
    ensures j < |fs| && 0 < m < |Wire(fs[j])| && cut == |WireAll(fs[..j])| + m
  {
    assert fs[..|fs|] == fs;
    j := LastBoundary(fs, |fs|, cut);
    m := cut - |WireAll(fs[..j])|;
  }

  lemma PartDecoded(c: Codec, fs: seq<Frame>, j: nat, m: nat, src: seq<byte>, sink: Sink, out: seq<byte>, total: nat,
                    exit: DecopyExit, n: nat)
    requires AllWellFormed(c, fs) && j < |fs| && 0 < m < |Wire(fs[j])| && src == WireAll(fs[..j]) + Wire(fs[j])[..m]
    requires Decoded(c, src, false, sink, out, total, exit, n) && exit != SinkFailed
    ensures n == j && out == RawAll(fs[..j]) && total == |out| && exit == Truncated(m == 5)
  {
    InsideTruncated(c, fs, j, m);
    PartTruncated(c, fs[j], m);
    assert fs[..j][..j] == fs[..j];
  }

  /** A valid stream cut between boundaries decodes to the whole frames before the cut and is then reported as
      truncated, never as malformed and never as complete; `atStart` tells a cut right behind a header. */
  lemma CutIsTruncated(c: Codec, fs: seq<Frame>, cut: nat, sink: Sink, out: seq<byte>, total: nat, exit: DecopyExit, n: nat)
    requires AllWellFormed(c, fs) && cut <= |WireAll(fs)| && !OnBoundary(fs, cut)
    requires Decoded(c, WireAll(fs)[..cut], false, sink, out, total, exit, n) && exit != SinkFailed
    ensures exit.Truncated? && n < |fs| && out == RawAll(fs[..n]) && total == |out|
    ensures |WireAll(fs[..n])| < cut < |WireAll(fs[..n])| + |Wire(fs[n])|
    ensures exit.atStart <==> cut == |WireAll(fs[..n])| + 5
  {
    var j, m := InsideFrame(fs, cut);
    CutInside(fs, j, m);
    PartDecoded(c, fs, j, m, WireAll(fs)[..cut], sink, out, total, exit, n);
  }
}
