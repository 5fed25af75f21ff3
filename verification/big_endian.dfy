/** Big-endian byte encodings of integers, shared by the signed-request message and the
    clamd framing. */
module BigEndian {
  type Byte = b: int | 0 <= b < 256

  function Pow256(k: nat): (p: nat)
    ensures p > 0
  {
    if k == 0 then 1 else 256 * Pow256(k - 1)
  }

  /** The low k bytes of n, most significant first. */
  function Encode(n: int, k: nat): (bs: seq<Byte>)
    ensures |bs| == k
    decreases k
  {
    if k == 0 then [] else Encode(n / 256, k - 1) + [n % 256]
  }

  function Decode(bs: seq<Byte>): (n: nat)
  {
    if bs == [] then 0 else 256 * Decode(bs[..|bs| - 1]) + bs[|bs| - 1]
  }

  /** Byte i of the k is the one worth 256 to the k - 1 - i. */
  lemma {:induction false} EncodedByte(n: int, k: nat, i: nat)
    requires i < k
    ensures Encode(n, k)[i] == n / Pow256(k - 1 - i) % 256
    decreases k
  {
    if i < k - 1 {
      EncodedByte(n / 256, k - 1, i);
      DivDiv(n, 256, Pow256(k - 2 - i));
    }
  }

  /** The first byte of a word counts most. */
  lemma {:induction false} DecodedFirst(b: Byte, bs: seq<Byte>)
    ensures Decode([b] + bs) == b * Pow256(|bs|) + Decode(bs)
    decreases |bs|
  {
    if bs != [] {
      var last := |bs| - 1;
      DecodedFirst(b, bs[..last]);
      assert ([b] + bs)[..|bs|] == [b] + bs[..last];
      assert b * (256 * Pow256(last)) == 256 * (b * Pow256(last));
    }
  }

  lemma Regroup(a: nat, b: nat, q: int, r: nat, s: nat)
    requires r < b && s < a
    ensures a * (b * q + r) + s == (a * b) * q + (a * r + s)
    ensures 0 <= a * r + s < a * b
  {
    assert a * (b * q + r) == a * (b * q) + a * r;
    assert a * (b * q) == (a * b) * q;
    MulAtLeast(a, b - r);
    assert a * b == a * (b - r) + a * r;
    assert 0 <= a * r;
  }

  /** Division by a and then by b is division by their product. */
  lemma DivDiv(n: int, a: nat, b: nat)
    requires a > 0 && b > 0
    ensures a * b > 0
    ensures n / a / b == n / (a * b)
    ensures n % (a * b) == a * (n / a % b) + n % a
  {
    var q, s := n / a, n % a;
    Regroup(a, b, q / b, q % b, s);
    assert n == a * q + s && q == b * (q / b) + q % b;
    Euclid(n, a * b, q / b, a * (q % b) + s);
  }

  lemma Euclid(n: int, d: nat, q: int, r: nat)
    requires r < d && n == d * q + r
    ensures n / d == q && n % d == r
  {
    QuotientUnique(d, q, r, n / d, n % d);
  }

  lemma QuotientUnique(d: nat, q: int, r: nat, q': int, r': nat)
    requires r < d && r' < d && d * q + r == d * q' + r'
    ensures q == q' && r == r'
  {
    assert d * (q - q') == r' - r;
    if q - q' >= 1 {
      MulAtLeast(d, q - q');
    } else if q' - q >= 1 {
      MulAtLeast(d, q' - q);
    }
  }

  lemma MulAtLeast(d: nat, m: nat)
    requires m >= 1
    ensures d * m >= d
  {
    assert d * m == d * (m - 1) + d;
  }

  /** Decoding the k bytes gives n modulo 256 to the k. */
  lemma {:induction false} DecodeEncode(n: int, k: nat)
    ensures Decode(Encode(n, k)) == n % Pow256(k)
    decreases k
  {
    if k > 0 {
      DecodeEncode(n / 256, k - 1);
      DivDiv(n, 256, Pow256(k - 1));
      assert Encode(n, k)[..k - 1] == Encode(n / 256, k - 1);
    }
  }
}
