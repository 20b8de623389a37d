/** Address prefixes (internal/acl/acl.go): what agreeing under a mask of leading one-bits means for addresses
    read as numbers. */
module Prefixes {
  import opened Bytes
  import opened Policy

  function Pow2(k: nat): (n: nat)
    ensures n >= 1
  {
    if k == 0 then 1 else 2 * Pow2(k - 1)
  }

  /** One byte of a mask with `q` one-bits left to place. */
  function MaskByte(q: int): (m: byte)
  {
    if q >= 8 then 255 else if q <= 0 then 0 else
      SmallPow(8 - q);
      256 - Pow2(8 - q)
  }

  lemma SmallPow(k: nat)
    requires 1 <= k <= 7
    ensures 2 <= Pow2(k) <= 128
  {
    assert Pow2(0) == 1 && Pow2(1) == 2 && Pow2(2) == 4 && Pow2(3) == 8;
    assert Pow2(4) == 16 && Pow2(5) == 32 && Pow2(6) == 64;
  }

  /** `net.CIDRMask(p, 8 * n)`: `p` one-bits, then zeros. */
  function PrefixMask(n: nat, p: int): (mask: seq<byte>)
    ensures |mask| == n
  {
    if n == 0 then [] else PrefixMask(n - 1, p) + [MaskByte(p - 8 * (n - 1))]
  }

  // ---- One byte ------------------------------------------------------------------------------

  lemma Times(b: nat, x: int, y: int)
    requires x <= y
    ensures b * x <= b * y
  {
  }

  lemma QuotientIs(a: nat, b: nat, q: nat)
    requires b * q <= a < b * q + b
    ensures a / b == q
  {
    var p := a / b;
    assert b * p <= a < b * p + b;
    if p < q {
      Times(b, p + 1, q);
    } else if q < p {
      Times(b, q + 1, p);
    }
  }

  lemma Halves(a: nat, b: nat)
    requires b > 0
    ensures (a / 2) / b == a / (2 * b)
  {
    var q := (a / 2) / b;
    assert b * q <= a / 2 < b * q + b;
    assert (2 * b) * q == 2 * (b * q);
    QuotientIs(a, 2 * b, q);
  }

  lemma AndEven(x: nat, y: nat)
    ensures And(x, 2 * y) == 2 * And(x / 2, y)
  {
    if x > 0 && y > 0 {
      assert (2 * y) / 2 == y && (2 * y) % 2 == 0;
    }
  }

  lemma AndOdd(x: nat, y: nat)
    ensures And(x, 2 * y + 1) == 2 * And(x / 2, y) + x % 2
  {
    if x > 0 {
      assert (2 * y + 1) / 2 == y && (2 * y + 1) % 2 == 1;
    }
  }

  lemma {:induction false} AllOnes(x: nat, n: nat)
    requires x < Pow2(n)
    ensures And(x, Pow2(n) - 1) == x
    decreases n
  {
    if n > 0 {
      AllOnes(x / 2, n - 1);
      AndOdd(x, Pow2(n - 1) - 1);
    }
  }

  lemma Doubled(b: nat, q: nat)
    ensures 2 * (b * q) == (2 * b) * q
  {
  }

  lemma {:induction false} PowGrows(k: nat, n: nat)
    requires k <= n
    ensures Pow2(k) <= Pow2(n)
    decreases n
  {
    if k < n { PowGrows(k, n - 1); }
  }

  /** Masking with `n - k` ones and `k` zeros clears the last `k` bits. */
  lemma {:induction false} MaskClears(x: nat, n: nat, k: nat)
    requires k <= n && x < Pow2(n) && Pow2(k) <= Pow2(n)
    ensures And(x, Pow2(n) - Pow2(k)) == Pow2(k) * (x / Pow2(k))
    decreases n
  {
    if k == 0 {
      AllOnes(x, n);
    } else {
      PowGrows(k - 1, n - 1);
      MaskClears(x / 2, n - 1, k - 1);
      AndEven(x, Pow2(n - 1) - Pow2(k - 1));
      Halves(x, Pow2(k - 1));
      Doubled(Pow2(k - 1), (x / 2) / Pow2(k - 1));
    }
  }

  lemma SameMultiple(b: nat, x: nat, y: nat, u: nat, v: nat)
    requires b > 0 && u == b * x && v == b * y
    ensures u == v <==> x == y
  {
    if x < y { Times(b, x + 1, y); }
    if y < x { Times(b, y + 1, x); }
  }

  lemma SameQuotient(b: nat, x: nat, y: nat, u: nat, v: nat)
    requires b > 0 && u == b * (x / b) && v == b * (y / b)
    ensures u == v <==> x / b == y / b
  {
    SameMultiple(b, x / b, y / b, u, v);
  }

  lemma PowOfEight()
    ensures Pow2(8) == 256
  {
    assert Pow2(3) == 8;
    assert Pow2(6) == 64;
  }

  /** The zeros at the end of a mask byte. */
  function Zeros(q: int): nat
  {
    if q >= 8 then 0 else if q <= 0 then 8 else 8 - q
  }

  lemma MaskByteIs(q: int)
    ensures Pow2(Zeros(q)) <= 256 && MaskByte(q) == 256 - Pow2(Zeros(q))
  {
    PowOfEight();
    PowGrows(Zeros(q), 8);
  }

  lemma ByteMasked(x: byte, q: int)
    ensures And(x, MaskByte(q)) == Pow2(Zeros(q)) * (x / Pow2(Zeros(q)))
  {
    MaskByteIs(q);
    PowOfEight();
    MaskClears(x, 8, Zeros(q));
  }

  /** Two bytes agree under a mask byte iff they agree without their last bits. */
  lemma ByteAgrees(x: byte, y: byte, q: int)
    ensures And(x, MaskByte(q)) == And(y, MaskByte(q)) <==> x / Pow2(Zeros(q)) == y / Pow2(Zeros(q))
  {
    ByteMasked(x, q);
    ByteMasked(y, q);
    SameQuotient(Pow2(Zeros(q)), x, y, And(x, MaskByte(q)), And(y, MaskByte(q)));
  }

  // ---- Whole addresses -----------------------------------------------------------------------

  predicate Agree(x: seq<byte>, y: seq<byte>, mask: seq<byte>)
    requires |x| == |y| == |mask|
  {
    forall i :: 0 <= i < |x| ==> And(x[i], mask[i]) == And(y[i], mask[i])
  }

  lemma AgreeSnoc(x: seq<byte>, y: seq<byte>, mask: seq<byte>, a: byte, b: byte, m: byte)
    requires |x| == |y| == |mask|
    ensures Agree(x + [a], y + [b], mask + [m]) <==> Agree(x, y, mask) && And(a, m) == And(b, m)
  {
    var x', y', mask' := x + [a], y + [b], mask + [m];
    if Agree(x', y', mask') {
      forall i | 0 <= i < |x| ensures And(x[i], mask[i]) == And(y[i], mask[i]) {
        assert And(x'[i], mask'[i]) == And(y'[i], mask'[i]);
      }
      assert And(x'[|x|], mask'[|x|]) == And(y'[|x|], mask'[|x|]);
    }
  }

  lemma DropByte(h: nat, l: byte, c: nat)
    requires c > 0
    ensures (256 * h + l) / (256 * c) == h / c
  {
    var q := h / c;
    assert c * q <= h < c * q + c;
    assert (256 * c) * q == 256 * (c * q);
    QuotientIs(256 * h + l, 256 * c, q);
  }

  lemma KeepByte(h: nat, l: byte, b: nat, m: nat)
    requires b > 0 && b * m == 256
    ensures (256 * h + l) / b == m * h + l / b && l / b < m
  {
    var q := l / b;
    assert b * q <= l < b * q + b;
    assert b * (m * h + q) == 256 * h + b * q by {
      assert b * (m * h) == (b * m) * h;
      assert b * (m * h + q) == b * (m * h) + b * q;
    }
    QuotientIs(256 * h + l, b, m * h + q);
    if q >= m { Times(b, m, q); }
  }

  lemma Digits(m: nat, h: nat, d: nat, h': nat, d': nat)
    requires d < m && d' < m && m * h + d == m * h' + d'
    ensures h == h' && d == d'
  {
    if h < h' { Times(m, h + 1, h'); }
    if h' < h { Times(m, h' + 1, h); }
  }

  lemma {:induction false} PowAdds(j: nat, k: nat)
    ensures Pow2(j + k) == Pow2(j) * Pow2(k)
    decreases j
  {
    if j > 0 {
      PowAdds(j - 1, k);
      assert Pow2(j) * Pow2(k) == 2 * (Pow2(j - 1) * Pow2(k));
    }
  }

  /** How many bits of an `n`-byte address a prefix of length `p` leaves free. */
  function Free(n: nat, p: int): nat
  {
    if p >= 8 * n then 0 else if p <= 0 then 8 * n else 8 * n - p
  }

  /** Agreement on a last byte that the prefix does not reach, or does. */
  lemma NumbersAgree(h: nat, l: byte, h': nat, l': byte, n: nat, p: int)
    ensures (256 * h + l) / Pow2(Free(n + 1, p)) == (256 * h' + l') / Pow2(Free(n + 1, p)) <==>
            && h / Pow2(Free(n, p)) == h' / Pow2(Free(n, p))
            && l / Pow2(Zeros(p - 8 * n)) == l' / Pow2(Zeros(p - 8 * n))
  {
    PowOfEight();
    if p <= 8 * n {
      var c := Pow2(Free(n, p));
      assert Free(n + 1, p) == 8 + Free(n, p);
      PowAdds(8, Free(n, p));
      DropByte(h, l, c);
      DropByte(h', l', c);
      assert l / 256 == 0 && l' / 256 == 0;
    } else {
      var k := Free(n + 1, p);
      assert k == Zeros(p - 8 * n) && k <= 8;
      PowAdds(k, 8 - k);
      var b, m := Pow2(k), Pow2(8 - k);
      KeepByte(h, l, b, m);
      KeepByte(h', l', b, m);
      if m * h + l / b == m * h' + l' / b {
        Digits(m, h, l / b, h', l' / b);
      }
    }
  }

  /** Two byte strings of one length agree in their first `p` bits, as numbers. */
  predicate SamePrefix(x: seq<byte>, y: seq<byte>, p: int)
    requires |x| == |y|
  {
    Number(x) / Pow2(Free(|x|, p)) == Number(y) / Pow2(Free(|x|, p))
  }

  lemma NumberSnoc(x: seq<byte>, a: byte)
    ensures Number(x + [a]) == 256 * Number(x) + a
  {
    assert Init(x + [a]) == x;
  }

  lemma PrefixSnoc(x: seq<byte>, y: seq<byte>, a: byte, b: byte, p: int)
    requires |x| == |y| && (Agree(x, y, PrefixMask(|x|, p)) <==> SamePrefix(x, y, p))
    ensures Agree(x + [a], y + [b], PrefixMask(|x| + 1, p)) <==> SamePrefix(x + [a], y + [b], p)
  {
    var n := |x|;
    MaskSnoc(n, p);
    AgreeSnoc(x, y, PrefixMask(n, p), a, b, MaskByte(p - 8 * n));
    ByteAgrees(a, b, p - 8 * n);
    PrefixSnocNumbers(x, y, a, b, p);
  }

  lemma MaskSnoc(n: nat, p: int)
    ensures PrefixMask(n + 1, p) == PrefixMask(n, p) + [MaskByte(p - 8 * n)]
  {
  }

  lemma PrefixSnocNumbers(x: seq<byte>, y: seq<byte>, a: byte, b: byte, p: int)
    requires |x| == |y|
    ensures SamePrefix(x + [a], y + [b], p) <==>
            SamePrefix(x, y, p) && a / Pow2(Zeros(p - 8 * |x|)) == b / Pow2(Zeros(p - 8 * |x|))
  {
    NumberSnoc(x, a);
    NumberSnoc(y, b);
    NumbersAgree(Number(x), a, Number(y), b, |x|, p);
  }

  /** Agreeing under the mask of a prefix is the same as agreeing, as numbers, after division by two to the
      number of bits that the prefix leaves free. */
  ghost predicate MaskMeansPrefix(x: seq<byte>, y: seq<byte>, p: int)
    requires |x| == |y|
  {
    Agree(x, y, PrefixMask(|x|, p)) <==> SamePrefix(x, y, p)
  }

  lemma NothingAgrees(x: seq<byte>, y: seq<byte>, p: int)
    requires |x| == |y| == 0
    ensures MaskMeansPrefix(x, y, p)
  {
    assert x == y;
  }

  lemma MaskMeansMore(x: seq<byte>, y: seq<byte>, x': seq<byte>, y': seq<byte>, p: int)
    requires |x'| == |y'| > 0 && x == Init(x') && y == Init(y') && MaskMeansPrefix(x, y, p)
    ensures MaskMeansPrefix(x', y', p)
  {
    PrefixSnoc(x, y, Last(x'), Last(y'), p);
    WithLast(x, x');
    WithLast(y, y');
  }

  lemma WithLast(x: seq<byte>, x': seq<byte>)
    requires |x'| > 0 && x == Init(x')
    ensures x' == x + [Last(x')]
  {
  }

  lemma {:induction false} PrefixAgrees(x: seq<byte>, y: seq<byte>, p: int)
    requires |x| == |y|
    ensures MaskMeansPrefix(x, y, p)
    decreases |x|
  {
    if |x| == 0 {
      NothingAgrees(x, y, p);
    } else {
      var x0, y0 := Init(x), Init(y);
      PrefixAgrees(x0, y0, p);
      MaskMeansMore(x0, y0, x, y, p);
    }
  }

  lemma {:induction false} NumberInjective(x: seq<byte>, y: seq<byte>)
    requires |x| == |y| && Number(x) == Number(y)
    ensures x == y
    decreases |x|
  {
    if |x| > 0 {
      Digits(256, Number(Init(x)), Last(x), Number(Init(y)), Last(y));
      NumberInjective(Init(x), Init(y));
      assert x == Init(x) + [Last(x)] && y == Init(y) + [Last(y)];
    }
  }

  /** The mask of a 16-byte network, as its last four bytes. */
  lemma {:induction false} MaskTail(n: nat, p: int)
    ensures PrefixMask(12 + n, p)[12..] == PrefixMask(n, p - 96)
    decreases n
  {
    if n > 0 {
      MaskTail(n - 1, p);
      var front := PrefixMask(12 + n - 1, p);
      assert PrefixMask(12 + n, p)[12..] == front[12..] + [MaskByte(p - 8 * (12 + n - 1))];
    }
  }
}
