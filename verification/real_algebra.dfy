/** Small facts of real arithmetic.  Products are passed by name, so that callers meet them as
    plain variables. */
module RealAlgebra {

  lemma ProductNonNegative(p: real, q: real, pq: real)
    requires p >= 0.0 && q >= 0.0 && pq == p * q
    ensures pq >= 0.0
  {
  }

  lemma ProductPositive(p: real, q: real, pq: real)
    requires p > 0.0 && q > 0.0 && pq == p * q
    ensures pq > 0.0
  {
  }

  lemma SquareSign(p: real, pp: real)
    requires pp == p * p
    ensures pp >= 0.0
    ensures p != 0.0 ==> pp > 0.0
  {
    if p > 0.0 {
      ProductPositive(p, p, pp);
    } else if p < 0.0 {
      ProductPositive(-p, -p, pp);
    }
  }

  /** Squares order non-negative numbers. */
  lemma SquaresOrder(p: real, q: real, pp: real, qq: real)
    requires 0.0 <= p < q && pp == p * p && qq == q * q
    ensures pp < qq
  {
    var d := (q - p) * (q + p);
    ProductPositive(q - p, q + p, d);
    assert d == q * q - p * p;
  }

  lemma RootUnique(p: real, q: real, pp: real, qq: real)
    requires p >= 0.0 && q >= 0.0 && pp == p * p && qq == q * q && pp == qq
    ensures p == q
  {
    if p < q {
      SquaresOrder(p, q, pp, qq);
    } else if q < p {
      SquaresOrder(q, p, qq, pp);
    }
  }

  lemma RatioWithin(c: real, d: real)
    requires d > 0.0 && -d <= c <= d
    ensures -1.0 <= c / d <= 1.0
  {
  }

  lemma RatioOfEqual(c: real, d: real)
    requires c == d && d != 0.0
    ensures c / d == 1.0
  {
  }

  lemma RatioNonNegative(c: real, d: real)
    requires d > 0.0 && c >= 0.0
    ensures c / d >= 0.0
  {
  }

  lemma SquareBound(c: real, d: real, cc: real, dd: real)
    requires d > 0.0 && cc == c * c && dd == d * d && cc <= dd
    ensures -1.0 <= c / d <= 1.0
  {
    if c > d {
      SquaresOrder(d, c, dd, cc);
    }
    if -c > d {
      SquaresOrder(d, -c, dd, cc);
    }
    RatioWithin(c, d);
  }

  lemma QuotientTimes(r: real, q: real, t: real)
    requires q != 0.0 && t == r / q
    ensures t * q == r
  {
  }

  lemma CancelFactor(p: real, q: real, n: real, pn: real, qn: real)
    requires n > 0.0 && pn == p * n && qn == q * n && pn == qn
    ensures p == q
  {
    assert (p - q) * n == 0.0;
  }

  lemma TimesSum(t: real, p: real, q: real)
    ensures t * (p + q) == t * p + t * q
  {
  }

  lemma StepFactor(n: real, m: real, nm: real, pm: real)
    requires nm == n * m && pm == (n - 1.0) * m
    ensures nm == pm + m
  {
  }

  lemma TimesValue(k: real, value: real, kv: real)
    requires kv == k * value
    ensures value == 0.0 ==> kv == 0.0
    ensures value == 1.0 ==> kv == k
  {
  }

  lemma SquareOfDifference(w: real, v: real, u: real, t: real, ww: real, vv: real, uv: real, uu: real, k: real, l: real)
    requires w == v - t * u && ww == w * w && vv == v * v && uv == u * v && uu == u * u
    requires k == -2.0 * t && l == t * t
    ensures ww == vv + k * uv + l * uu
  {
    assert (v - t * u) * (v - t * u) == v * v + (-2.0 * t) * (u * v) + (t * t) * (u * u);
  }

  lemma SquareOfOffset(e: real, w: real, c: real, ee: real, ww: real, k: real, m: real)
    requires e == w + c && ee == e * e && ww == w * w && k == 2.0 * c && m == c * c
    ensures ee == ww + k * w + m
  {
    assert (w + c) * (w + c) == w * w + (2.0 * c) * w + c * c;
  }

  lemma ScaledProducts(v: real, u: real, s: real, uv: real, vv: real, uu: real, l: real)
    requires v == s * u && uv == u * v && vv == v * v && uu == u * u && l == s * s
    ensures uv == s * uu && vv == l * uu
  {
    assert u * (s * u) == s * (u * u);
    assert (s * u) * (s * u) == (s * s) * (u * u);
  }

  lemma SquareOfScaled(s: real, d: real, sd: real, l: real, ld: real)
    requires sd == s * d && l == s * s && ld == l * d
    ensures sd * sd == d * ld
  {
    assert (s * d) * (s * d) == d * ((s * s) * d);
  }

  lemma OffsetStep(x: real, mx: real, y: real, my: real, a: real, t: real)
    ensures y - a - t * x == ((y - my) - t * (x - mx)) + (my - a - t * mx)
  {
  }

  lemma MeanOfLine(sx: real, sy: real, n: real, s: real, c: real, mx: real, my: real)
    requires n > 0.0 && sy == s * sx + c * n && mx == sx / n && my == sy / n
    ensures my == s * mx + c
  {
    QuotientTimes(sx, n, mx);
    QuotientTimes(sy, n, my);
    assert (s * mx + c) * n == s * (mx * n) + c * n;
    CancelFactor(my, s * mx + c, n, sy, sy);
  }

  /** A quadratic that is nowhere negative has no positive discriminant. */
  lemma Discriminant(p: real, q: real, r: real, t: real, tt: real)
    requires q > 0.0 && t == r / q && tt == t * t
    requires p + (-2.0 * t) * r + tt * q >= 0.0
    ensures r * r <= q * p
  {
    QuotientTimes(r, q, t);
    assert tt * q == t * r by {
      assert (t * t) * q == t * (t * q);
    }
    var d := (p - t * r) * q;
    ProductNonNegative(p - t * r, q, d);
    assert d == q * p - r * r by {
      assert (p - t * r) * q == q * p - r * (t * q);
    }
  }

  /** A quadratic is lowest at its vertex. */
  lemma VertexIsLowest(w: real, c: real, v: real, s: real, t: real)
    requires v > 0.0 && s == c / v
    ensures w + (-2.0 * s) * c + (s * s) * v <= w + (-2.0 * t) * c + (t * t) * v
  {
    QuotientTimes(c, v, s);
    var g := (t - s) * (t - s);
    SquareSign(t - s, g);
    var h := g * v;
    ProductNonNegative(g, v, h);
    assert h == (t * t) * v + (-2.0 * t) * (s * v) + s * (s * v);
    assert (s * s) * v == s * (s * v);
  }

  lemma SpreadOfTwo(p: real, q: real, pp: real, qq: real)
    requires q - p >= 1.0 && pp == p * p && qq == q * q
    ensures pp + qq >= 0.5
  {
    var g := (p + q) * (p + q);
    SquareSign(p + q, g);
    var h := (q - p - 1.0) * (q - p + 1.0);
    ProductNonNegative(q - p - 1.0, q - p + 1.0, h);
    assert h == (q - p) * (q - p) - 1.0;
    assert 2.0 * (p * p + q * q) == (q - p) * (q - p) + (p + q) * (p + q);
  }

  // ---- Sums of a rotating vector -----------------------------------------------------

  lemma NextAngle(k: nat, c: real)
    ensures (k + 1) as real * c == k as real * c + c
  {
    assert (k + 1) as real == k as real + 1.0;
  }

  lemma LaterAngle(k: nat, n: nat, c: real)
    ensures (k + n) as real * c == k as real * c + n as real * c
  {
    assert (k + n) as real == k as real + n as real;
  }

  /** (a, b) is v times the sum of the points of the unit circle from (c0, s0) on, one turn (x, y)
      after the other, up to but not including (c1, s1). */
  ghost predicate Turned(a: real, b: real, x: real, y: real, v: real, c0: real, s0: real, c1: real, s1: real) {
    && a * (1.0 - x) + b * y == v * (c0 - c1)
    && b * (1.0 - x) - a * y == v * (s0 - s1)
  }

  lemma TurnStart(x: real, y: real, v: real, c0: real, s0: real)
    ensures Turned(0.0, 0.0, x, y, v, c0, s0, c0, s0)
  {
  }

  lemma TurnStep(a: real, b: real, x: real, y: real, v: real, c0: real, s0: real,
                 ck: real, sk: real, cn: real, sn: real)
    requires Turned(a, b, x, y, v, c0, s0, ck, sk)
    requires cn == ck * x - sk * y && sn == sk * x + ck * y
    ensures Turned(a + v * ck, b + v * sk, x, y, v, c0, s0, cn, sn)
  {
    assert v * (ck - cn) == v * ck - (v * ck) * x + (v * sk) * y;
    assert v * (sk - sn) == v * sk - (v * sk) * x - (v * ck) * y;
  }

  lemma TurnedLength(a: real, b: real, x: real, y: real, v: real, c0: real, s0: real, cw: real, sw: real,
                     c1: real, s1: real, d: real)
    requires Turned(a, b, x, y, v, c0, s0, c1, s1) && d == a * a + b * b
    requires x * x + y * y == 1.0 && c0 * c0 + s0 * s0 == 1.0 && cw * cw + sw * sw == 1.0
    requires c1 == c0 * cw - s0 * sw && s1 == s0 * cw + c0 * sw
    ensures d * (1.0 - x) == (v * v) * (1.0 - cw)
  {
    Chord(v, c0, s0, cw, sw, c1, s1);
    ComplexProduct(a, b, x, y, v * (c0 - c1), v * (s0 - s1));
  }

  /** The squared length of (a, b), times that of (1 - x, y). */
  lemma ComplexProduct(a: real, b: real, x: real, y: real, p: real, q: real)
    requires x * x + y * y == 1.0
    requires p == a * (1.0 - x) + b * y && q == b * (1.0 - x) - a * y
    ensures p * p + q * q == 2.0 * ((a * a + b * b) * (1.0 - x))
  {
    var s, z := a * a + b * b, 1.0 - x;
    assert p * p + q * q == s * (z * z + y * y);
    assert z * z + y * y == 2.0 * z;
  }

  /** The squared distance of two points of the unit circle, `w` being the cosine between them. */
  lemma Chord(v: real, c0: real, s0: real, cw: real, sw: real, c1: real, s1: real)
    requires c0 * c0 + s0 * s0 == 1.0 && cw * cw + sw * sw == 1.0
    requires c1 == c0 * cw - s0 * sw && s1 == s0 * cw + c0 * sw
    ensures (v * (c0 - c1)) * (v * (c0 - c1)) + (v * (s0 - s1)) * (v * (s0 - s1)) == 2.0 * ((v * v) * (1.0 - cw))
  {
    var d, e := c0 - c1, s0 - s1;
    assert c0 * c1 + s0 * s1 == (c0 * c0 + s0 * s0) * cw;
    assert c1 * c1 + s1 * s1 == (c0 * c0 + s0 * s0) * (cw * cw + sw * sw);
    assert d * d + e * e == 2.0 * (1.0 - cw);
    assert (v * d) * (v * d) + (v * e) * (v * e) == (v * v) * (d * d + e * e);
  }

  lemma AverageOf(sum: real, m: real, t: real, k: real)
    requires m > 0.0 && sum * t == m * k
    ensures (sum / m) * t == k
  {
    var r := sum / m;
    assert r * m == sum;
    assert m * (r * t) == m * k;
  }
}
