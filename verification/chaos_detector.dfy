/** The chaos detector (core/chaos_detector) over the reals; sqrt, cos and sin are abstract
    functions, of which only the defining property of sqrt is used. */
module Chaos {
  import opened EventLog
  import opened RealAlgebra

  const CHAOS_THRESHOLD := 0.7
  const N_PHASES := 20
  const M_PI := 3.14159265358979323846

  type Vec = seq<real>

  // ---- Sums --------------------------------------------------------------------------

  function Sum(p: Vec, n: nat): real
    requires n <= |p|
  {
    if n == 0 then 0.0 else Sum(p, n - 1) + p[n - 1]
  }

  lemma {:induction false} SumGrows(p: Vec, m: nat, n: nat)
    requires m <= n <= |p|
    requires forall i :: 0 <= i < |p| ==> p[i] >= 0.0
    ensures 0.0 <= Sum(p, m) <= Sum(p, n)
  {
    if n > 0 {
      SumGrows(p, if m == n then m - 1 else m, n - 1);
    }
  }

  lemma {:induction false} SumHasTerm(p: Vec, n: nat, i: nat)
    requires i < n <= |p|
    requires forall j :: 0 <= j < |p| ==> p[j] >= 0.0
    ensures p[i] <= Sum(p, n)
  {
    if i < n - 1 {
      SumHasTerm(p, n - 1, i);
    } else {
      SumGrows(p, n - 1, n - 1);
    }
  }

  /** r = a + k b + l c, term by term. */
  ghost predicate Combines(r: Vec, a: Vec, k: real, b: Vec, l: real, c: Vec) {
    && |r| == |a| == |b| == |c|
    && forall i :: 0 <= i < |r| ==> r[i] == a[i] + k * b[i] + l * c[i]
  }

  /** Sums are linear. */
  lemma {:induction false} SumCombines(r: Vec, a: Vec, k: real, b: Vec, l: real, c: Vec, n: nat)
    requires Combines(r, a, k, b, l, c) && n <= |r|
    ensures Sum(r, n) == Sum(a, n) + k * Sum(b, n) + l * Sum(c, n)
  {
    if n > 0 {
      SumCombines(r, a, k, b, l, c, n - 1);
      TimesSum(k, Sum(b, n - 1), b[n - 1]);
      TimesSum(l, Sum(c, n - 1), c[n - 1]);
    }
  }

  ghost predicate Scaled(r: Vec, k: real, b: Vec) {
    |r| == |b| && forall i :: 0 <= i < |r| ==> r[i] == k * b[i]
  }

  lemma {:induction false} SumScales(r: Vec, k: real, b: Vec, n: nat)
    requires Scaled(r, k, b) && n <= |r|
    ensures Sum(r, n) == k * Sum(b, n)
  {
    if n > 0 {
      SumScales(r, k, b, n - 1);
      TimesSum(k, Sum(b, n - 1), b[n - 1]);
    }
  }

  function Constant(value: real, n: nat): (z: Vec)
    ensures |z| == n
    ensures forall i :: 0 <= i < n ==> z[i] == value
  {
    seq(n, _ => value)
  }

  lemma {:induction false} SumOfConstant(p: Vec, value: real, n: nat)
    requires n <= |p| && (value == 0.0 || value == 1.0)
    requires forall i :: 0 <= i < |p| ==> p[i] == value
    ensures Sum(p, n) == if value == 0.0 then 0.0 else n as real
  {
    if n > 0 {
      SumOfConstant(p, value, n - 1);
    }
  }

  function Centred(x: Vec, m: real): (u: Vec)
    ensures |u| == |x|
  {
    seq(|x|, i requires 0 <= i < |x| => x[i] - m)
  }

  function Products(u: Vec, v: Vec): (p: Vec)
    requires |u| == |v|
    ensures |p| == |u|
  {
    seq(|u|, i requires 0 <= i < |u| => u[i] * v[i])
  }

  function Dot(u: Vec, v: Vec): real
    requires |u| == |v|
  {
    Sum(Products(u, v), |u|)
  }

  lemma SquaresNonNegative(u: Vec)
    ensures forall i :: 0 <= i < |u| ==> Products(u, u)[i] >= 0.0
  {
    forall i | 0 <= i < |u| ensures Products(u, u)[i] >= 0.0 {
      SquareSign(u[i], Products(u, u)[i]);
    }
  }

  lemma DotSelf(u: Vec)
    ensures Dot(u, u) >= 0.0
  {
    SquaresNonNegative(u);
    SumGrows(Products(u, u), |u|, |u|);
  }

  lemma ZeroVector(u: Vec, i: nat)
    requires i < |u| && Dot(u, u) == 0.0
    ensures u[i] == 0.0
  {
    SquaresNonNegative(u);
    SumHasTerm(Products(u, u), |u|, i);
    SquareSign(u[i], Products(u, u)[i]);
  }

  lemma DotWithZero(u: Vec, v: Vec)
    requires |u| == |v| && Dot(u, u) == 0.0
    ensures Dot(u, v) == 0.0
  {
    forall i | 0 <= i < |u| ensures Products(u, v)[i] == 0.0 {
      ZeroVector(u, i);
    }
    SumOfConstant(Products(u, v), 0.0, |u|);
  }

  /** v minus t times u. */
  function Minus(v: Vec, t: real, u: Vec): (w: Vec)
    requires |u| == |v|
    ensures |w| == |u|
  {
    seq(|u|, i requires 0 <= i < |u| => v[i] - t * u[i])
  }

  lemma MinusSquaredAt(u: Vec, v: Vec, t: real, k: real, l: real, i: nat)
    requires i < |u| == |v| && k == -2.0 * t && l == t * t
    ensures Products(Minus(v, t, u), Minus(v, t, u))[i]
         == Products(v, v)[i] + k * Products(u, v)[i] + l * Products(u, u)[i]
  {
    var w := Minus(v, t, u);
    SquareOfDifference(w[i], v[i], u[i], t,
                       Products(w, w)[i], Products(v, v)[i], Products(u, v)[i], Products(u, u)[i], k, l);
  }

  lemma MinusSquaredCombines(u: Vec, v: Vec, t: real, k: real, l: real)
    requires |u| == |v| && k == -2.0 * t && l == t * t
    ensures Combines(Products(Minus(v, t, u), Minus(v, t, u)), Products(v, v), k, Products(u, v), l, Products(u, u))
  {
    forall i | 0 <= i < |u|
      ensures Products(Minus(v, t, u), Minus(v, t, u))[i]
           == Products(v, v)[i] + k * Products(u, v)[i] + l * Products(u, u)[i]
    {
      MinusSquaredAt(u, v, t, k, l, i);
    }
  }

  lemma MinusSquared(u: Vec, v: Vec, t: real, k: real, l: real)
    requires |u| == |v| && k == -2.0 * t && l == t * t
    ensures Dot(Minus(v, t, u), Minus(v, t, u)) == Dot(v, v) + k * Dot(u, v) + l * Dot(u, u)
  {
    MinusSquaredCombines(u, v, t, k, l);
    SumCombines(Products(Minus(v, t, u), Minus(v, t, u)), Products(v, v), k, Products(u, v), l, Products(u, u), |u|);
  }

  /** Cauchy-Schwarz. */
  lemma CauchySchwarz(u: Vec, v: Vec)
    requires |u| == |v|
    ensures Dot(u, v) * Dot(u, v) <= Dot(u, u) * Dot(v, v)
  {
    DotSelf(u);
    DotSelf(v);
    if Dot(u, u) == 0.0 {
      DotWithZero(u, v);
    } else {
      var t := Dot(u, v) / Dot(u, u);
      MinusSquared(u, v, t, -2.0 * t, t * t);
      DotSelf(Minus(v, t, u));
      Discriminant(Dot(v, v), Dot(u, u), Dot(u, v), t, t * t);
    }
  }

  // ---- Pearson correlation -----------------------------------------------------------

  function Mean(x: Vec): real
    requires |x| > 0
  {
    Average(Sum(x, |x|), |x|)
  }

  ghost predicate IsSqrt(sqrt: real -> real) {
    forall v :: v >= 0.0 ==> sqrt(v) >= 0.0 && sqrt(v) * sqrt(v) == v
  }

  const CUTOFF := 0.000000000001

  /** num / denom, or zero when the divisor is below the cut-off. */
  function Ratio(num: real, denom: real): real {
    if denom < CUTOFF then 0.0 else num / denom
  }

  function Root(sqrt: real -> real, dx2: real, dy2: real): real {
    sqrt(dx2 * dy2)
  }

  function Quotient(sqrt: real -> real, num: real, dx2: real, dy2: real): real {
    Ratio(num, Root(sqrt, dx2, dy2))
  }

  lemma RootSquared(sqrt: real -> real, dx2: real, dy2: real, product: real, squared: real)
    requires IsSqrt(sqrt) && dx2 >= 0.0 && dy2 >= 0.0 && product == dx2 * dy2
    requires squared == Root(sqrt, dx2, dy2) * Root(sqrt, dx2, dy2)
    ensures Root(sqrt, dx2, dy2) >= 0.0 && squared == product
  {
    ProductNonNegative(dx2, dy2, product);
    assert product >= 0.0 ==> sqrt(product) >= 0.0 && sqrt(product) * sqrt(product) == product;
  }

  lemma RatioOfSelf(num: real)
    ensures Ratio(num, num) == if num < CUTOFF then 0.0 else 1.0
  {
    if num >= CUTOFF {
      RatioOfEqual(num, num);
    }
  }

  function Correlation(sqrt: real -> real, x: Vec, y: Vec): real {
    if |x| < 2 || |x| != |y| then 0.0
    else
      var u, v := Centred(x, Mean(x)), Centred(y, Mean(y));
      Quotient(sqrt, Dot(u, v), Dot(u, u), Dot(v, v))
  }

  lemma QuotientBounded(sqrt: real -> real, num: real, dx2: real, dy2: real)
    requires IsSqrt(sqrt) && dx2 >= 0.0 && dy2 >= 0.0 && num * num <= dx2 * dy2
    ensures -1.0 <= Quotient(sqrt, num, dx2, dy2) <= 1.0
  {
    var denom := Root(sqrt, dx2, dy2);
    var product, squared := dx2 * dy2, denom * denom;
    RootSquared(sqrt, dx2, dy2, product, squared);
    if denom >= CUTOFF {
      SquareBound(num, denom, num * num, squared);
    }
  }

  lemma VectorsBounded(sqrt: real -> real, u: Vec, v: Vec)
    requires IsSqrt(sqrt) && |u| == |v|
    ensures -1.0 <= Quotient(sqrt, Dot(u, v), Dot(u, u), Dot(v, v)) <= 1.0
  {
    CauchySchwarz(u, v);
    DotSelf(u);
    DotSelf(v);
    QuotientBounded(sqrt, Dot(u, v), Dot(u, u), Dot(v, v));
  }

  /** pearson lies in [-1, 1]. */
  lemma CorrelationBounded(sqrt: real -> real, x: Vec, y: Vec)
    requires IsSqrt(sqrt)
    ensures -1.0 <= Correlation(sqrt, x, y) <= 1.0
  {
    if |x| >= 2 && |x| == |y| {
      VectorsBounded(sqrt, Centred(x, Mean(x)), Centred(y, Mean(y)));
    }
  }

  lemma LineMean(x: Vec, y: Vec, s: real, c: real)
    requires |x| == |y| && |x| > 0
    requires forall i :: 0 <= i < |x| ==> y[i] == s * x[i] + c
    ensures Mean(y) == s * Mean(x) + c
  {
    var n := |x|;
    var zeros, ones := Constant(0.0, n), Constant(1.0, n);
    assert Combines(y, zeros, s, x, c, ones);
    SumCombines(y, zeros, s, x, c, ones, n);
    SumOfConstant(zeros, 0.0, n);
    SumOfConstant(ones, 1.0, n);
    MeanOfLine(Sum(x, n), Sum(y, n), n as real, s, c, Mean(x), Mean(y));
  }

  lemma LineCentred(x: Vec, mx: real, y: Vec, s: real, c: real)
    requires |x| == |y|
    requires forall i :: 0 <= i < |x| ==> y[i] == s * x[i] + c
    ensures forall i :: 0 <= i < |x| ==> Centred(y, s * mx + c)[i] == s * Centred(x, mx)[i]
  {
    forall i | 0 <= i < |x| ensures Centred(y, s * mx + c)[i] == s * Centred(x, mx)[i] {
      TimesSum(s, x[i], -mx);
    }
  }

  lemma LineProductsAt(u: Vec, v: Vec, s: real, l: real, i: nat)
    requires i < |u| == |v| && v[i] == s * u[i] && l == s * s
    ensures Products(u, v)[i] == s * Products(u, u)[i]
    ensures Products(v, v)[i] == l * Products(u, u)[i]
  {
    ScaledProducts(v[i], u[i], s, Products(u, v)[i], Products(v, v)[i], Products(u, u)[i], l);
  }

  lemma LineProducts(u: Vec, v: Vec, s: real, l: real)
    requires |u| == |v| && l == s * s
    requires forall i :: 0 <= i < |u| ==> v[i] == s * u[i]
    ensures Scaled(Products(u, v), s, Products(u, u)) && Scaled(Products(v, v), l, Products(u, u))
  {
    forall i | 0 <= i < |u|
      ensures Products(u, v)[i] == s * Products(u, u)[i] && Products(v, v)[i] == l * Products(u, u)[i]
    {
      LineProductsAt(u, v, s, l, i);
    }
  }

  lemma ScaledDots(u: Vec, v: Vec, s: real, w: Vec)
    requires |u| == |v| == |w| && Scaled(Products(u, v), s, Products(w, w))
    ensures Dot(u, v) == s * Dot(w, w)
  {
    SumScales(Products(u, v), s, Products(w, w), |u|);
  }

  lemma LineDots(u: Vec, v: Vec, s: real, l: real)
    requires |u| == |v| && l == s * s
    requires forall i :: 0 <= i < |u| ==> v[i] == s * u[i]
    ensures Dot(u, v) == s * Dot(u, u)
    ensures Dot(v, v) == l * Dot(u, u)
  {
    LineProducts(u, v, s, l);
    ScaledDots(u, v, s, u);
    ScaledDots(v, v, l, u);
  }

  lemma ParallelScoresOne(sqrt: real -> real, num: real, dx2: real, dy2: real, s: real, l: real)
    requires IsSqrt(sqrt) && dx2 >= 0.0 && s > 0.0 && num == s * dx2
    requires l == s * s && dy2 == l * dx2 && dy2 >= 0.0
    ensures Quotient(sqrt, num, dx2, dy2) == if num < CUTOFF then 0.0 else 1.0
  {
    var denom := Root(sqrt, dx2, dy2);
    var product, squared := dx2 * dy2, denom * denom;
    RootSquared(sqrt, dx2, dy2, product, squared);
    SquareOfScaled(s, dx2, num, l, dy2);
    ProductNonNegative(s, dx2, num);
    RootUnique(num, denom, product, squared);
    RatioOfSelf(num);
  }

  /** A rising line correlates perfectly: the score is exactly 1, unless the covariation is
      below the cut-off, where the code answers 0. */
  lemma RisingLineScoresOne(sqrt: real -> real, x: Vec, y: Vec, s: real, c: real)
    requires IsSqrt(sqrt) && |x| == |y| && |x| >= 2 && s > 0.0
    requires forall i :: 0 <= i < |x| ==> y[i] == s * x[i] + c
    ensures Correlation(sqrt, x, y)
         == if Dot(Centred(x, Mean(x)), Centred(y, Mean(y))) < CUTOFF then 0.0 else 1.0
  {
    var u, v := Centred(x, Mean(x)), Centred(y, Mean(y));
    LineMean(x, y, s, c);
    LineCentred(x, Mean(x), y, s, c);
    LineDots(u, v, s, s * s);
    DotSelf(u);
    DotSelf(v);
    ParallelScoresOne(sqrt, Dot(u, v), Dot(u, u), Dot(v, v), s, s * s);
  }

  /** m is the mean of x and u what is left of x without it. */
  ghost predicate IsCentred(x: Vec, u: Vec, m: real) {
    && |u| == |x| > 0 && m * |x| as real == Sum(x, |x|)
    && forall i :: 0 <= i < |x| ==> u[i] == x[i] - m
  }

  lemma CentredIs(x: Vec, u: Vec, m: real)
    requires IsCentred(x, u, m)
    ensures u == Centred(x, Mean(x))
  {
    MeanIs(x, m);
  }

  lemma BothCentred(x: Vec, y: Vec, u: Vec, v: Vec, mx: real, my: real)
    requires IsCentred(x, u, mx) && IsCentred(y, v, my)
    ensures |u| == |x| > 0 && |v| == |y| > 0
    ensures u == Centred(x, Mean(x)) && v == Centred(y, Mean(y))
  {
    CentredIs(x, u, mx);
    CentredIs(y, v, my);
  }

  /** pearson, times the root of the product of the squared spreads, is the covariation; it is 0
      where that root is below 1e-12. */
  lemma CorrelationIs(sqrt: real -> real, x: Vec, y: Vec, u: Vec, v: Vec, mx: real, my: real,
                      root: real, squared: real, num: real, dx2: real, dy2: real)
    requires IsSqrt(sqrt) && |x| == |y| >= 2 && IsCentred(x, u, mx) && IsCentred(y, v, my)
    requires |u| == |v| ==> num == Dot(u, v) && dx2 == Dot(u, u) && dy2 == Dot(v, v)
    requires root >= 0.0 && squared == root * root && squared == dx2 * dy2
    ensures root < 0.000000000001 ==> Correlation(sqrt, x, y) == 0.0
    ensures root >= 0.000000000001 ==> Correlation(sqrt, x, y) * root == num
  {
    BothCentred(x, y, u, v, mx, my);
    CorrelationOf(sqrt, x, y, u, v, root, squared, num, dx2, dy2);
  }

  lemma CorrelationOf(sqrt: real -> real, x: Vec, y: Vec, u: Vec, v: Vec, root: real, squared: real,
                      num: real, dx2: real, dy2: real)
    requires IsSqrt(sqrt) && |x| == |y| >= 2 && u == Centred(x, Mean(x)) && v == Centred(y, Mean(y))
    requires num == Dot(u, v) && dx2 == Dot(u, u) && dy2 == Dot(v, v)
    requires root >= 0.0 && squared == root * root && squared == dx2 * dy2
    ensures root < CUTOFF ==> Correlation(sqrt, x, y) == 0.0
    ensures root >= CUTOFF ==> Correlation(sqrt, x, y) * root == num
  {
    DotSelf(u);
    DotSelf(v);
    QuotientIs(sqrt, num, dx2, dy2, root, squared);
  }

  lemma MeanIs(x: Vec, m: real)
    requires |x| > 0 && m * |x| as real == Sum(x, |x|)
    ensures Mean(x) == m
  {
    QuotientTimes(Sum(x, |x|), |x| as real, Mean(x));
    CancelFactor(m, Mean(x), |x| as real, Sum(x, |x|), Sum(x, |x|));
  }

  lemma QuotientIs(sqrt: real -> real, num: real, dx2: real, dy2: real, root: real, squared: real)
    requires IsSqrt(sqrt) && dx2 >= 0.0 && dy2 >= 0.0
    requires root >= 0.0 && squared == root * root && squared == dx2 * dy2
    ensures root < CUTOFF ==> Quotient(sqrt, num, dx2, dy2) == 0.0
    ensures root >= CUTOFF ==> Quotient(sqrt, num, dx2, dy2) * root == num
  {
    var denom := Root(sqrt, dx2, dy2);
    RootSquared(sqrt, dx2, dy2, squared, denom * denom);
    RootUnique(root, denom, squared, denom * denom);
    if root >= CUTOFF {
      QuotientTimes(num, root, num / root);
    }
  }

  /** The accumulating loop of pearson and of the regression. */
  method Moments(x: Vec, mx: real, y: Vec, my: real) returns (num: real, dx2: real, dy2: real)
    requires |x| == |y|
    ensures num == Dot(Centred(x, mx), Centred(y, my))
    ensures dx2 == Dot(Centred(x, mx), Centred(x, mx))
    ensures dy2 == Dot(Centred(y, my), Centred(y, my))
  {
    num, dx2, dy2 := 0.0, 0.0, 0.0;
    ghost var u, v := Centred(x, mx), Centred(y, my);
    for i := 0 to |x|
      invariant num == Sum(Products(u, v), i)
      invariant dx2 == Sum(Products(u, u), i)
      invariant dy2 == Sum(Products(v, v), i)
    {
      var xi, yi := x[i] - mx, y[i] - my;
      assert u[i] == xi && v[i] == yi;
      num := num + xi * yi;
      dx2 := dx2 + xi * xi;
      dy2 := dy2 + yi * yi;
    }
  }

  method Pearson(sqrt: real -> real, x: Vec, y: Vec) returns (r: real)
    requires IsSqrt(sqrt)
    ensures r == Correlation(sqrt, x, y)
    ensures -1.0 <= r <= 1.0
    ensures |x| < 2 || |x| != |y| ==> r == 0.0
  {
    CorrelationBounded(sqrt, x, y);
    var n := |x|;
    if n < 2 || n != |y| {
      return 0.0;
    }
    var num, dx2, dy2 := Moments(x, Mean(x), y, Mean(y));
    return Quotient(sqrt, num, dx2, dy2);
  }

  // ---- Mean-square displacement ------------------------------------------------------

  function Angle(turns: nat, c: real): real {
    turns as real * c
  }

  /** The increments series[i] * f((i + 1) c) of an orbit. */
  function Increments(f: real -> real, series: Vec, c: real): (d: Vec)
    ensures |d| == |series|
  {
    seq(|series|, i requires 0 <= i < |series| => Weighted(series[i], f(Angle(i + 1, c))))
  }

  function Weighted(sample: real, value: real): real {
    sample * value
  }

  /** Positions of the orbit: the running sums of its increments. */
  function Orbit(f: real -> real, series: Vec, c: real): (p: Vec)
    ensures |p| == |series| + 1
  {
    var d := Increments(f, series, c);
    seq(|series| + 1, j requires 0 <= j < |series| + 1 => Sum(d, j))
  }

  /** Squared displacement of (p, q) between times j and j + n, for j = 1 .. count. */
  function Displacements(p: Vec, q: Vec, n: nat, count: nat): (d: Vec)
    requires count + n < |p| == |q|
    ensures |d| == count
  {
    seq(count, j requires 0 <= j < count => Moved(p[j + 1 + n] - p[j + 1], q[j + 1 + n] - q[j + 1]))
  }

  function Moved(dp: real, dq: real): real {
    dp * dp + dq * dq
  }

  lemma MovedNonNegative(dp: real, dq: real)
    ensures Moved(dp, dq) >= 0.0
  {
    var pp, qq := dp * dp, dq * dq;
    SquareSign(dp, pp);
    SquareSign(dq, qq);
  }

  lemma DisplacementsNonNegative(p: Vec, q: Vec, n: nat, count: nat)
    requires count + n < |p| == |q|
    ensures forall j :: 0 <= j < count ==> Displacements(p, q, n, count)[j] >= 0.0
  {
    forall j | 0 <= j < count ensures Displacements(p, q, n, count)[j] >= 0.0 {
      MovedNonNegative(p[j + 1 + n] - p[j + 1], q[j + 1 + n] - q[j + 1]);
    }
  }

  /** The mean-square displacement at lag n; zero when the lag leaves no pair. */
  function Msd(p: Vec, q: Vec, size: nat, n: nat): real
    requires |p| == |q| == size + 1
  {
    if size <= n then 0.0 else Average(Sum(Displacements(p, q, n, size - n), size - n), size - n)
  }

  function Average(sum: real, count: nat): real
    requires count > 0
  {
    sum / count as real
  }

  lemma AverageNonNegative(sum: real, count: nat)
    requires count > 0 && sum >= 0.0
    ensures Average(sum, count) >= 0.0
  {
    RatioNonNegative(sum, count as real);
  }

  function MsdsOf(p: Vec, q: Vec, size: nat, nMax: nat): (m: Vec)
    requires |p| == |q| == size + 1
    ensures |m| == nMax
  {
    if nMax == 0 then [] else MsdsOf(p, q, size, nMax - 1) + [Msd(p, q, size, nMax)]
  }

  /** M_c(1) .. M_c(nMax) for the orbit of the series under phase c. */
  function Msds(cos: real -> real, sin: real -> real, series: Vec, c: real, nMax: nat): (m: Vec)
    ensures |m| == nMax
  {
    MsdsOf(Orbit(cos, series, c), Orbit(sin, series, c), |series|, nMax)
  }

  /** compute_msd is non-negative at every lag. */
  lemma MsdNonNegative(p: Vec, q: Vec, size: nat, n: nat)
    requires |p| == |q| == size + 1
    ensures Msd(p, q, size, n) >= 0.0
  {
    if n < size {
      var d := Displacements(p, q, n, size - n);
      DisplacementsNonNegative(p, q, n, size - n);
      SumGrows(d, size - n, size - n);
      AverageNonNegative(Sum(d, size - n), size - n);
    }
  }

  // ---- What the displacement measures ------------------------------------------------

  /** The orbit starts at zero, and step j adds the sample times the function at j + 1 phases. */
  lemma OrbitSteps(f: real -> real, series: Vec, c: real, j: nat, angle: real, step: real)
    requires j < |series| && angle == (j + 1) as real * c && step == series[j] * f(angle)
    ensures Orbit(f, series, c)[0] == 0.0
    ensures Orbit(f, series, c)[j + 1] == Orbit(f, series, c)[j] + step
  {
    var d := Increments(f, series, c);
    assert Angle(j + 1, c) == angle;
    assert d[j] == Weighted(series[j], f(angle));
    assert Sum(d, j + 1) == Sum(d, j) + d[j];
  }

  /** M_c(n), times the number of pairs, is the sum over the pairs (j, j + n), j from 1 on, of the
      squared distance between them. */
  lemma MsdIsMean(p: Vec, q: Vec, size: nat, n: nat)
    requires |p| == |q| == size + 1 && n < size
    ensures var d := Displacements(p, q, n, size - n);
            && |d| == size - n
            && (forall j :: 0 <= j < |d| ==>
                  d[j] == (p[j + 1 + n] - p[j + 1]) * (p[j + 1 + n] - p[j + 1])
                          + (q[j + 1 + n] - q[j + 1]) * (q[j + 1 + n] - q[j + 1]))
            && Msd(p, q, size, n) == Sum(d, |d|) / |d| as real
    ensures Msd(p, q, size, size + n) == 0.0
  {
  }

  lemma {:induction false} MsdsAt(p: Vec, q: Vec, size: nat, nMax: nat, n: nat)
    requires |p| == |q| == size + 1 && 1 <= n <= nMax
    ensures MsdsOf(p, q, size, nMax)[n - 1] == Msd(p, q, size, n)
  {
    if n < nMax {
      MsdsAt(p, q, size, nMax - 1, n);
    }
  }

  /** The laws of cosine and sine that are used. */
  ghost predicate AddsAngles(cos: real -> real, sin: real -> real, a: real, b: real) {
    && cos(a + b) == cos(a) * cos(b) - sin(a) * sin(b)
    && sin(a + b) == sin(a) * cos(b) + cos(a) * sin(b)
  }

  ghost predicate OnCircle(cos: real -> real, sin: real -> real, a: real) {
    cos(a) * cos(a) + sin(a) * sin(a) == 1.0
  }

  ghost predicate Trigonometric(cos: real -> real, sin: real -> real) {
    && (forall a, b :: AddsAngles(cos, sin, a, b))
    && (forall a :: OnCircle(cos, sin, a))
  }

  /** One more step of a constant signal, at the angle after the last one. */
  lemma TurnAt(cos: real -> real, sin: real -> real, c: real, v: real, a: real, b: real, c0: real, s0: real,
               angle: real, next: real, stepA: real, stepB: real)
    requires Trigonometric(cos, sin) && next == angle + c
    requires stepA == v * cos(angle) && stepB == v * sin(angle)
    requires Turned(a, b, cos(c), sin(c), v, c0, s0, cos(angle), sin(angle))
    ensures Turned(a + stepA, b + stepB, cos(c), sin(c), v, c0, s0, cos(next), sin(next))
  {
    assert AddsAngles(cos, sin, angle, c);
    TurnStep(a, b, cos(c), sin(c), v, c0, s0, cos(angle), sin(angle), cos(next), sin(next));
  }

  /** One step of a constant signal. */
  ghost predicate KeptTurn(cos: real -> real, sin: real -> real, c: real, v: real,
                           angle: real, next: real, stepA: real, stepB: real) {
    next == angle + c && stepA == v * cos(angle) && stepB == v * sin(angle)
  }

  lemma ConstantStep(cos: real -> real, sin: real -> real, series: Vec, c: real, v: real, i: nat,
                     angle: real, next: real, stepA: real, stepB: real)
    requires i < |series| && series[i] == v && angle == Angle(i + 1, c) && next == Angle(i + 2, c)
    requires stepA == Orbit(cos, series, c)[i + 1] - Orbit(cos, series, c)[i]
    requires stepB == Orbit(sin, series, c)[i + 1] - Orbit(sin, series, c)[i]
    ensures KeptTurn(cos, sin, c, v, angle, next, stepA, stepB)
  {
    NextAngle(i + 1, c);
    OrbitSteps(cos, series, c, i, angle, v * cos(angle));
    OrbitSteps(sin, series, c, i, angle, v * sin(angle));
  }

  /** keeps(first, a, b, angle): what holds of the way (a, b) from the angle `first` to `angle`. */
  ghost predicate Carries(cos: real -> real, sin: real -> real, c: real, v: real,
                          keeps: (real, real, real, real) -> bool) {
    && (forall first :: keeps(first, 0.0, 0.0, first))
    && forall first, a, b, angle, next, stepA, stepB ::
         keeps(first, a, b, angle) && KeptTurn(cos, sin, c, v, angle, next, stepA, stepB) ==>
           keeps(first, a + stepA, b + stepB, next)
  }

  ghost predicate StepKept(cos: real -> real, sin: real -> real, c: real, v: real, p: Vec, q: Vec, angles: Vec, i: nat)
    requires i + 1 < |p| == |q| == |angles|
  {
    KeptTurn(cos, sin, c, v, angles[i], angles[i + 1], p[i + 1] - p[i], q[i + 1] - q[i])
  }

  /** (p, q) moves as the orbit of a constant signal. */
  ghost predicate Turns(cos: real -> real, sin: real -> real, c: real, v: real, p: Vec, q: Vec, angles: Vec) {
    |p| == |q| == |angles| && forall i: nat :: i + 1 < |p| ==> StepKept(cos, sin, c, v, p, q, angles, i)
  }

  lemma CarriesOver(cos: real -> real, sin: real -> real, c: real, v: real, keeps: (real, real, real, real) -> bool,
                    first: real, p0: real, p1: real, p2: real, q0: real, q1: real, q2: real, angle: real, next: real)
    requires Carries(cos, sin, c, v, keeps) && keeps(first, p1 - p0, q1 - q0, angle)
    requires KeptTurn(cos, sin, c, v, angle, next, p2 - p1, q2 - q1)
    ensures keeps(first, p2 - p0, q2 - q0, next)
  {
    var a, b, stepA, stepB := p1 - p0, q1 - q0, p2 - p1, q2 - q1;
    assert keeps(first, a, b, angle) && KeptTurn(cos, sin, c, v, angle, next, stepA, stepB);
    assert keeps(first, a + stepA, b + stepB, next);
    assert a + stepA == p2 - p0 && b + stepB == q2 - q0;
  }

  /** The way from position j to position k. */
  lemma {:induction false} TurningPath(cos: real -> real, sin: real -> real, c: real, v: real, p: Vec, q: Vec,
                                       angles: Vec, j: nat, k: nat, keeps: (real, real, real, real) -> bool)
    requires Carries(cos, sin, c, v, keeps) && Turns(cos, sin, c, v, p, q, angles) && j <= k < |p|
    ensures keeps(angles[j], p[k] - p[j], q[k] - q[j], angles[k])
  {
    if j < k {
      TurningPath(cos, sin, c, v, p, q, angles, j, k - 1, keeps);
      assert StepKept(cos, sin, c, v, p, q, angles, k - 1);
      CarriesOver(cos, sin, c, v, keeps, angles[j], p[j], p[k - 1], p[k], q[j], q[k - 1], q[k],
                  angles[k - 1], angles[k]);
    }
  }

  function Angles(n: nat, c: real): (angles: Vec)
    ensures |angles| == n + 1
    ensures forall i :: 0 <= i <= n ==> angles[i] == Angle(i + 1, c)
  {
    seq(n + 1, i requires 0 <= i <= n => Angle(i + 1, c))
  }

  lemma ConstantTurns(cos: real -> real, sin: real -> real, series: Vec, c: real, v: real, p: Vec, q: Vec, angles: Vec)
    requires forall i :: 0 <= i < |series| ==> series[i] == v
    requires p == Orbit(cos, series, c) && q == Orbit(sin, series, c) && angles == Angles(|series|, c)
    ensures Turns(cos, sin, c, v, p, q, angles)
  {
    forall i: nat | i + 1 < |p| ensures StepKept(cos, sin, c, v, p, q, angles, i) {
      ConstantStep(cos, sin, series, c, v, i, angles[i], angles[i + 1], p[i + 1] - p[i], q[i + 1] - q[i]);
    }
  }

  /** What holds of every way through the angle `turn` holds between positions j and j + n. */
  lemma TurningPair(cos: real -> real, sin: real -> real, c: real, v: real, p: Vec, q: Vec, angles: Vec,
                    j: nat, n: nat, turn: real,
                    keeps: (real, real, real, real) -> bool, good: (real, real) -> bool)
    requires Carries(cos, sin, c, v, keeps) && Turns(cos, sin, c, v, p, q, angles) && j + n < |p|
    requires angles[j + n] == angles[j] + turn
    requires forall first, a, b, last :: keeps(first, a, b, last) && last == first + turn ==> good(a, b)
    ensures good(p[j + n] - p[j], q[j + n] - q[j])
  {
    TurningPath(cos, sin, c, v, p, q, angles, j, j + n, keeps);
  }

  lemma DisplacementsGood(p: Vec, q: Vec, n: nat, count: nat, good: (real, real) -> bool, fair: real -> bool)
    requires count + n < |p| == |q|
    requires forall j :: 1 <= j <= count ==> good(p[j + n] - p[j], q[j + n] - q[j])
    requires forall a, b :: good(a, b) ==> fair(Moved(a, b))
    ensures var d := Displacements(p, q, n, count); forall i :: 0 <= i < |d| ==> fair(d[i])
  {
    forall i | 0 <= i < count ensures fair(Displacements(p, q, n, count)[i]) {
      var j := i + 1;
      assert good(p[j + n] - p[j], q[j + n] - q[j]);
    }
  }

  lemma TurningPairs(cos: real -> real, sin: real -> real, c: real, v: real, p: Vec, q: Vec, angles: Vec,
                     n: nat, count: nat, turn: real,
                     keeps: (real, real, real, real) -> bool, good: (real, real) -> bool)
    requires Carries(cos, sin, c, v, keeps) && Turns(cos, sin, c, v, p, q, angles) && count + n < |p|
    requires forall j :: 0 <= j <= count ==> angles[j + n] == angles[j] + turn
    requires forall first, a, b, last :: keeps(first, a, b, last) && last == first + turn ==> good(a, b)
    ensures forall j :: 1 <= j <= count ==> good(p[j + n] - p[j], q[j + n] - q[j])
  {
    forall j | 1 <= j <= count ensures good(p[j + n] - p[j], q[j + n] - q[j]) {
      TurningPair(cos, sin, c, v, p, q, angles, j, n, turn, keeps, good);
    }
  }

  /** moved is v^2 times the ratio of 1 - cos turn to 1 - cos c. */
  ghost predicate Swings(cos: real -> real, c: real, v: real, turn: real, moved: real) {
    moved * (1.0 - cos(c)) == (v * v) * (1.0 - cos(turn))
  }

  lemma LengthOfPath(cos: real -> real, sin: real -> real, c: real, v: real, a: real, b: real,
                     first: real, turn: real, last: real, moved: real)
    requires Trigonometric(cos, sin) && last == first + turn && moved == Moved(a, b)
    requires Turned(a, b, cos(c), sin(c), v, cos(first), sin(first), cos(last), sin(last))
    ensures Swings(cos, c, v, turn, moved)
  {
    assert AddsAngles(cos, sin, first, turn);
    assert OnCircle(cos, sin, c) && OnCircle(cos, sin, first) && OnCircle(cos, sin, turn);
    TurnedLength(a, b, cos(c), sin(c), v, cos(first), sin(first), cos(turn), sin(turn),
                 cos(last), sin(last), moved);
  }

  ghost function Turning(cos: real -> real, sin: real -> real, c: real, v: real): (real, real, real, real) -> bool {
    (first: real, a: real, b: real, angle: real) =>
      Turned(a, b, cos(c), sin(c), v, cos(first), sin(first), cos(angle), sin(angle))
  }

  lemma TurningCarries(cos: real -> real, sin: real -> real, c: real, v: real,
                       keeps: (real, real, real, real) -> bool)
    requires Trigonometric(cos, sin) && keeps == Turning(cos, sin, c, v)
    ensures Carries(cos, sin, c, v, keeps)
  {
    forall first ensures keeps(first, 0.0, 0.0, first) {
      TurnStart(cos(c), sin(c), v, cos(first), sin(first));
    }
    forall first, a, b, angle, next, stepA, stepB
      | keeps(first, a, b, angle) && KeptTurn(cos, sin, c, v, angle, next, stepA, stepB)
      ensures keeps(first, a + stepA, b + stepB, next)
    {
      TurnAt(cos, sin, c, v, a, b, cos(first), sin(first), angle, next, stepA, stepB);
    }
  }

  lemma TurningSwings(cos: real -> real, sin: real -> real, c: real, v: real, turn: real,
                      keeps: (real, real, real, real) -> bool, good: (real, real) -> bool)
    requires Trigonometric(cos, sin) && keeps == Turning(cos, sin, c, v)
    requires good == ((a: real, b: real) => Swings(cos, c, v, turn, Moved(a, b)))
    ensures forall first, a, b, last :: keeps(first, a, b, last) && last == first + turn ==> good(a, b)
  {
    forall first, a, b, last | keeps(first, a, b, last) && last == first + turn ensures good(a, b) {
      LengthOfPath(cos, sin, c, v, a, b, first, turn, last, Moved(a, b));
    }
  }

  lemma {:induction false} SumOfEqual(d: Vec, t: real, k: real, n: nat)
    requires n <= |d| && forall i :: 0 <= i < |d| ==> d[i] * t == k
    ensures Sum(d, n) * t == n as real * k
  {
    if n > 0 {
      SumOfEqual(d, t, k, n - 1);
      TimesSum(t, Sum(d, n - 1), d[n - 1]);
      NextAngle(n - 1, k);
    }
  }

  lemma MeanSwings(cos: real -> real, c: real, v: real, turn: real, d: Vec)
    requires |d| > 0 && forall i :: 0 <= i < |d| ==> Swings(cos, c, v, turn, d[i])
    ensures Swings(cos, c, v, turn, Average(Sum(d, |d|), |d|))
  {
    var t, k := 1.0 - cos(c), (v * v) * (1.0 - cos(turn));
    assert forall i :: 0 <= i < |d| ==> Swings(cos, c, v, turn, d[i]) ==> d[i] * t == k;
    SumOfEqual(d, t, k, |d|);
    AverageOf(Sum(d, |d|), |d| as real, t, k);
  }

  lemma TurningDisplacements(cos: real -> real, sin: real -> real, c: real, v: real, p: Vec, q: Vec, angles: Vec,
                             n: nat, count: nat, turn: real)
    requires Trigonometric(cos, sin) && Turns(cos, sin, c, v, p, q, angles) && count + n < |p|
    requires forall j :: 0 <= j <= count ==> angles[j + n] == angles[j] + turn
    ensures var d := Displacements(p, q, n, count); forall i :: 0 <= i < |d| ==> Swings(cos, c, v, turn, d[i])
  {
    var keeps := Turning(cos, sin, c, v);
    var good := (a: real, b: real) => Swings(cos, c, v, turn, Moved(a, b));
    TurningCarries(cos, sin, c, v, keeps);
    TurningSwings(cos, sin, c, v, turn, keeps, good);
    TurningPairs(cos, sin, c, v, p, q, angles, n, count, turn, keeps, good);
    DisplacementsGood(p, q, n, count, good, m => Swings(cos, c, v, turn, m));
  }

  lemma AnglesTurn(angles: Vec, n: nat, count: nat, c: real, turn: real)
    requires angles == Angles(n + count, c) && turn == Angle(n, c)
    ensures forall j :: 0 <= j <= count ==> angles[j + n] == angles[j] + turn
  {
    forall j: nat | j <= count ensures angles[j + n] == angles[j] + turn {
      LaterAngle(j + 1, n, c);
    }
  }

  /** On a constant signal the displacement does not grow: for cosine and sine and every lag below the
      length, M_c(n) (1 - cos c) == v^2 (1 - cos n c). */
  lemma ConstantSeries(cos: real -> real, sin: real -> real, series: Vec, c: real, v: real, nMax: nat, n: nat,
                       turn: real)
    requires Trigonometric(cos, sin) && 1 <= n <= nMax && n < |series| && turn == n as real * c
    requires forall i :: 0 <= i < |series| ==> series[i] == v
    ensures Swings(cos, c, v, turn, Msds(cos, sin, series, c, nMax)[n - 1])
  {
    var p, q := Orbit(cos, series, c), Orbit(sin, series, c);
    MsdsAt(p, q, |series|, nMax, n);
    var angles := Angles(|series|, c);
    ConstantTurns(cos, sin, series, c, v, p, q, angles);
    AnglesTurn(angles, n, |series| - n, c, turn);
    TurningDisplacements(cos, sin, c, v, p, q, angles, n, |series| - n, turn);
    MeanSwings(cos, c, v, turn, Displacements(p, q, n, |series| - n));
  }

  method BuildOrbit(f: real -> real, series: Vec, c: real) returns (p: array<real>)
    ensures fresh(p) && p[..] == Orbit(f, series, c)
  {
    var d := Increments(f, series, c);
    p := RunningSums(d);
  }

  method RunningSums(d: Vec) returns (p: array<real>)
    ensures fresh(p) && p.Length == |d| + 1
    ensures forall i :: 0 <= i < p.Length ==> p[i] == Sum(d, i)
  {
    p := new real[|d| + 1];
    p[0] := 0.0;
    for j := 0 to |d|
      invariant forall i :: 0 <= i <= j ==> p[i] == Sum(d, i)
    {
      p[j + 1] := p[j] + d[j];
    }
  }

  method DisplacementSum(p: array<real>, q: array<real>, n: nat, count: nat) returns (sum: real)
    requires count + n < p.Length == q.Length
    ensures sum == Sum(Displacements(p[..], q[..], n, count), count)
  {
    sum := 0.0;
    ghost var d := Displacements(p[..], q[..], n, count);
    for j := 1 to count + 1
      invariant sum == Sum(d, j - 1)
    {
      var dp, dq := p[j + n] - p[j], q[j + n] - q[j];
      assert d[j - 1] == Moved(dp, dq);
      sum := sum + (dp * dp + dq * dq);
    }
  }

  method MsdAtLag(p: array<real>, q: array<real>, size: nat, n: nat) returns (d: real)
    requires p.Length == q.Length == size + 1
    ensures d == Msd(p[..], q[..], size, n)
    ensures d >= 0.0
  {
    MsdNonNegative(p[..], q[..], size, n);
    if size <= n {
      return 0.0;
    }
    var sum := DisplacementSum(p, q, n, size - n);
    return Average(sum, size - n);
  }

  method MsdsAtLags(p: array<real>, q: array<real>, size: nat, nMax: nat) returns (m: Vec)
    requires p.Length == q.Length == size + 1
    ensures m == MsdsOf(p[..], q[..], size, nMax)
    ensures forall k :: 0 <= k < |m| ==> m[k] >= 0.0
  {
    m := [];
    for n := 1 to nMax + 1
      invariant m == MsdsOf(p[..], q[..], size, n - 1)
      invariant forall k :: 0 <= k < |m| ==> m[k] >= 0.0
    {
      var d := MsdAtLag(p, q, size, n);
      m := m + [d];
    }
  }

  method ComputeMsd(cos: real -> real, sin: real -> real, series: Vec, c: real, nMax: nat) returns (m: Vec)
    ensures m == Msds(cos, sin, series, c, nMax)
    ensures forall k :: 0 <= k < |m| ==> m[k] >= 0.0
  {
    var p := BuildOrbit(cos, series, c);
    var q := BuildOrbit(sin, series, c);
    m := MsdsAtLags(p, q, |series|, nMax);
  }

  // ---- Counting and order statistics -------------------------------------------------

  function Tally(v: Vec, test: real -> bool): (n: nat)
    ensures n <= |v|
  {
    if v == [] then 0 else Tally(v[..|v| - 1], test) + (if test(v[|v| - 1]) then 1 else 0)
  }

  lemma {:induction false} TallyConcat(v: Vec, w: Vec, test: real -> bool)
    ensures Tally(v + w, test) == Tally(v, test) + Tally(w, test)
  {
    if w == [] {
      assert v + w == v;
    } else {
      assert (v + w)[..|v + w| - 1] == v + w[..|w| - 1];
      TallyConcat(v, w[..|w| - 1], test);
    }
  }

  function Without(w: Vec, j: nat): Vec
    requires j < |w|
  {
    w[..j] + w[j + 1..]
  }

  lemma WithoutMultiset(w: Vec, j: nat)
    requires j < |w|
    ensures multiset(Without(w, j)) == multiset(w) - multiset{w[j]}
  {
    assert w == w[..j] + [w[j]] + w[j + 1..];
  }

  lemma TallySnoc(v: Vec, e: real, test: real -> bool)
    ensures Tally(v + [e], test) == Tally(v, test) + (if test(e) then 1 else 0)
  {
    assert (v + [e])[..|v|] == v;
  }

  lemma TallyCut(w: Vec, j: nat, test: real -> bool)
    requires j <= |w|
    ensures Tally(w, test) == Tally(w[..j], test) + Tally(w[j..], test)
  {
    assert w[..j] + w[j..] == w;
    TallyConcat(w[..j], w[j..], test);
  }

  lemma TallyHead(w: Vec, test: real -> bool)
    requires w != []
    ensures Tally(w, test) == Tally(w[1..], test) + (if test(w[0]) then 1 else 0)
  {
    TallySnoc([], w[0], test);
    assert [w[0]] == w[..1] == [] + [w[0]];
    TallyCut(w, 1, test);
  }

  lemma TallyWithout(w: Vec, j: nat, test: real -> bool)
    requires j < |w|
    ensures Tally(w, test) == Tally(Without(w, j), test) + (if test(w[j]) then 1 else 0)
  {
    TallyCut(w, j, test);
    TallyHead(w[j..], test);
    assert w[j..][1..] == w[j + 1..];
    TallyConcat(w[..j], w[j + 1..], test);
  }

  lemma {:induction false} TallyPermutation(v: Vec, w: Vec, test: real -> bool)
    requires multiset(v) == multiset(w)
    ensures Tally(v, test) == Tally(w, test)
    decreases |v|
  {
    if v == [] {
      assert |multiset(w)| == 0;
    } else {
      var last := |v| - 1;
      assert v[last] in multiset(w);
      var j :| 0 <= j < |w| && w[j] == v[last];
      WithoutMultiset(v, last);
      WithoutMultiset(w, j);
      TallyPermutation(Without(v, last), Without(w, j), test);
      TallyWithout(v, last, test);
      TallyWithout(w, j, test);
    }
  }

  lemma {:induction false} TallyMonotone(v: Vec, f: real -> bool, g: real -> bool)
    requires forall i :: 0 <= i < |v| && f(v[i]) ==> g(v[i])
    ensures Tally(v, f) <= Tally(v, g)
  {
    if v != [] {
      TallyMonotone(v[..|v| - 1], f, g);
    }
  }

  lemma {:induction false} TallyComplement(v: Vec, f: real -> bool, g: real -> bool)
    requires forall i :: 0 <= i < |v| ==> f(v[i]) != g(v[i])
    ensures Tally(v, f) + Tally(v, g) == |v|
  {
    if v != [] {
      TallyComplement(v[..|v| - 1], f, g);
    }
  }

  function Below(v: Vec, x: real): nat {
    Tally(v, e => e < x)
  }

  function AtMost(v: Vec, x: real): nat {
    Tally(v, e => e <= x)
  }

  function Above(v: Vec, x: real): nat {
    Tally(v, e => e > x)
  }

  /** x is the element at index k once v is sorted. */
  predicate OrderStat(v: Vec, k: nat, x: real) {
    Below(v, x) <= k < AtMost(v, x)
  }

  /** Order statistics grow with the index, so each index has only one. */
  lemma OrderStatMonotone(v: Vec, k: nat, x: real, l: nat, y: real)
    requires OrderStat(v, k, x) && OrderStat(v, l, y) && k <= l
    ensures x <= y
  {
    if y < x {
      TallyMonotone(v, e => e <= y, e => e < x);
    }
  }

  lemma AboveComplementsAtMost(v: Vec, x: real)
    ensures Above(v, x) + AtMost(v, x) == |v|
  {
    TallyComplement(v, e => e > x, e => e <= x);
  }

  /** The mean of the two middle order statistics exceeds t only if at least half of the
      values do, and always if more than half do. */
  lemma MedianAbove(v: Vec, m: nat, lo: real, hi: real, t: real)
    requires |v| == 2 * m && m > 0
    requires OrderStat(v, m - 1, lo) && OrderStat(v, m, hi)
    ensures (lo + hi) / 2.0 > t ==> Above(v, t) >= m
    ensures Above(v, t) > m ==> (lo + hi) / 2.0 > t
  {
    OrderStatMonotone(v, m - 1, lo, m, hi);
    AboveComplementsAtMost(v, t);
    if (lo + hi) / 2.0 > t {
      assert hi > t;
      TallyMonotone(v, e => e <= t, e => e < hi);
    }
    if Above(v, t) > m && lo <= t {
      TallyMonotone(v, e => e <= lo, e => e <= t);
    }
  }

  lemma SwapKeepsElements(w: Vec, i: nat, j: nat)
    requires i < |w| && j < |w|
    ensures multiset(w[i := w[j]][j := w[i]]) == multiset(w)
  {
  }

  /** std::nth_element: some permutation with the k-th smallest at index k, nothing larger before
      it and nothing smaller after. */
  method NthElement(v: Vec, k: nat) returns (w: Vec)
    requires k < |v|
    ensures multiset(w) == multiset(v) && |w| == |v|
    ensures OrderStat(v, k, w[k])
    ensures forall i :: 0 <= i < |w| ==> if i < k then w[i] <= w[k] else w[k] <= w[i]
  {
    w := v;
    var i := 0;
    while i <= k
      invariant i <= k + 1 && |w| == |v| && multiset(w) == multiset(v)
      invariant forall a, b :: 0 <= a < i && a <= b < |w| ==> w[a] <= w[b]
    {
      var least := i;
      for j := i + 1 to |w|
        invariant i <= least < |w|
        invariant forall b :: i <= b < j ==> w[least] <= w[b]
      {
        if w[j] < w[least] {
          least := j;
        }
      }
      SwapKeepsElements(w, i, least);
      w := w[i := w[least]][least := w[i]];
      i := i + 1;
    }
    PartitionedIsOrderStat(w, k);
    OrderStatOfPermutation(w, v, k, w[k]);
  }

  lemma OrderStatOfPermutation(v: Vec, w: Vec, k: nat, x: real)
    requires OrderStat(v, k, x) && multiset(v) == multiset(w)
    ensures OrderStat(w, k, x)
  {
    TallyPermutation(v, w, e => e < x);
    TallyPermutation(v, w, e => e <= x);
  }

  lemma {:induction false} TallyAll(v: Vec, test: real -> bool, value: bool)
    requires forall i :: 0 <= i < |v| ==> test(v[i]) == value
    ensures Tally(v, test) == if value then |v| else 0
  {
    if v != [] {
      TallyAll(v[..|v| - 1], test, value);
    }
  }

  lemma PartitionedIsOrderStat(w: Vec, k: nat)
    requires k < |w|
    requires forall a, b :: 0 <= a <= k && a <= b < |w| ==> w[a] <= w[b]
    ensures OrderStat(w, k, w[k])
  {
    var x := w[k];
    assert w == w[..k] + w[k..] && w == w[..k + 1] + w[k + 1..];
    TallyConcat(w[..k], w[k..], e => e < x);
    TallyAll(w[k..], e => e < x, false);
    TallyConcat(w[..k + 1], w[k + 1..], e => e <= x);
    TallyAll(w[..k + 1], e => e <= x, true);
  }

  /** The median: the middle order statistic, or the mean of the two middle ones. */
  method Median(v: Vec) returns (r: real, ghost lo: real, ghost hi: real)
    ensures v == [] ==> r == 0.0
    ensures v != [] ==> OrderStat(v, (|v| - 1) / 2, lo) && OrderStat(v, |v| / 2, hi)
    ensures v != [] ==> r == (lo + hi) / 2.0
  {
    lo, hi := 0.0, 0.0;
    if |v| == 0 {
      return 0.0, lo, hi;
    }
    var mid := |v| / 2;
    var w := NthElement(v, mid);
    if |w| % 2 == 1 {
      return w[mid], w[mid], w[mid];
    }
    var upper := w[mid];
    var u := NthElement(w, mid - 1);
    TallyPermutation(v, w, e => e < u[mid - 1]);
    TallyPermutation(v, w, e => e <= u[mid - 1]);
    return (u[mid - 1] + upper) / 2.0, u[mid - 1], upper;
  }

  // ---- The 0-1 test ------------------------------------------------------------------

  function DefaultPhases(): (phases: Vec)
    ensures |phases| == N_PHASES
    ensures forall i :: 0 <= i < N_PHASES ==> 0.0 < phases[i] < M_PI
    ensures forall i :: 0 <= i < 20 ==> phases[i] * 21.0 == 3.14159265358979323846 * (i + 1) as real
  {
    seq(N_PHASES, i => M_PI * (i as real + 1.0) / (N_PHASES as real + 1.0))
  }

  function Ramp(n: nat): (v: Vec)
    ensures |v| == n
  {
    seq(n, i => (i + 1) as real)
  }

  /** The score of one phase: how well the displacement grows like a line. */
  function PhaseScore(sqrt: real -> real, cos: real -> real, sin: real -> real, series: Vec, c: real): real {
    var nMax := if |series| / 10 > 5 then |series| / 10 else 5;
    Correlation(sqrt, Ramp(nMax), Msds(cos, sin, series, c, nMax))
  }

  function ScoresBy(f: real -> real, phases: Vec, n: nat): (scores: Vec)
    requires n <= |phases|
    ensures |scores| == n
  {
    if n == 0 then [] else ScoresBy(f, phases, n - 1) + [f(phases[n - 1])]
  }

  function PhaseScores(sqrt: real -> real, cos: real -> real, sin: real -> real, series: Vec, phases: Vec)
    : (scores: Vec)
    ensures |scores| == |phases|
  {
    ScoresBy(c => PhaseScore(sqrt, cos, sin, series, c), phases, |phases|)
  }

  lemma {:induction false} ScoresByAt(f: real -> real, phases: Vec, n: nat, i: nat)
    requires i < n <= |phases|
    ensures ScoresBy(f, phases, n)[i] == f(phases[i])
  {
    if i < n - 1 {
      ScoresByAt(f, phases, n - 1, i);
    }
  }

  lemma LagsOf(size: nat, n: nat)
    requires if size < 50 then n == 5 else 10 * n <= size < 10 * n + 10
    ensures n == if size / 10 > 5 then size / 10 else 5
  {
  }

  /** The score of each phase correlates 1, 2, 3, ... with the displacements at these lags, up to a
      tenth of the number of samples and at least 5. */
  lemma PhaseScoreIs(sqrt: real -> real, cos: real -> real, sin: real -> real, series: Vec, phases: Vec,
                     i: nat, lags: Vec)
    requires i < |phases| && forall j :: 0 <= j < |lags| ==> lags[j] == (j + 1) as real
    requires if |series| < 50 then |lags| == 5 else 10 * |lags| <= |series| < 10 * |lags| + 10
    ensures PhaseScores(sqrt, cos, sin, series, phases)[i]
         == Correlation(sqrt, lags, Msds(cos, sin, series, phases[i], |lags|))
  {
    assert lags == Ramp(|lags|);
    LagsOf(|series|, |lags|);
    ScoresByAt(c => PhaseScore(sqrt, cos, sin, series, c), phases, |phases|, i);
  }

  lemma PhaseScoreBounded(sqrt: real -> real, cos: real -> real, sin: real -> real, series: Vec, c: real)
    requires IsSqrt(sqrt)
    ensures -1.0 <= PhaseScore(sqrt, cos, sin, series, c) <= 1.0
  {
    var nMax := if |series| / 10 > 5 then |series| / 10 else 5;
    CorrelationBounded(sqrt, Ramp(nMax), Msds(cos, sin, series, c, nMax));
  }

  ghost predicate AllWithin(v: Vec) {
    forall i :: 0 <= i < |v| ==> -1.0 <= v[i] <= 1.0
  }

  lemma {:induction false} ScoresByBounded(f: real -> real, phases: Vec, n: nat)
    requires n <= |phases| && forall c :: -1.0 <= f(c) <= 1.0
    ensures AllWithin(ScoresBy(f, phases, n))
  {
    if n > 0 {
      ScoresByBounded(f, phases, n - 1);
    }
  }

  lemma PhaseScoresBounded(sqrt: real -> real, cos: real -> real, sin: real -> real, series: Vec, phases: Vec)
    requires IsSqrt(sqrt)
    ensures AllWithin(PhaseScores(sqrt, cos, sin, series, phases))
  {
    var f := c => PhaseScore(sqrt, cos, sin, series, c);
    forall c ensures -1.0 <= f(c) <= 1.0 {
      PhaseScoreBounded(sqrt, cos, sin, series, c);
    }
    ScoresByBounded(f, phases, |phases|);
  }

  method ScorePhase(sqrt: real -> real, cos: real -> real, sin: real -> real, series: Vec, c: real)
    returns (score: real)
    requires IsSqrt(sqrt)
    ensures score == PhaseScore(sqrt, cos, sin, series, c)
  {
    var nMax := if |series| / 10 > 5 then |series| / 10 else 5;
    var m := ComputeMsd(cos, sin, series, c, nMax);
    score := Pearson(sqrt, Ramp(nMax), m);
  }

  method ScorePhases(sqrt: real -> real, cos: real -> real, sin: real -> real, series: Vec, phases: Vec)
    returns (scores: Vec)
    requires IsSqrt(sqrt)
    ensures scores == PhaseScores(sqrt, cos, sin, series, phases)
  {
    ghost var f := c => PhaseScore(sqrt, cos, sin, series, c);
    scores := [];
    for i := 0 to |phases|
      invariant scores == ScoresBy(f, phases, i)
    {
      var score := ScorePhase(sqrt, cos, sin, series, phases[i]);
      assert score == f(phases[i]);
      scores := scores + [score];
    }
  }

  function Phases(phasesIn: Vec): (phases: Vec)
    ensures |phases| > 0
  {
    if phasesIn == [] then DefaultPhases() else phasesIn
  }

  /** k is 0 for fewer than ten samples, and otherwise the mean of the two middle phase scores, or 0
      if that is negative. */
  ghost predicate IsChaosScore(sqrt: real -> real, cos: real -> real, sin: real -> real, series: Vec,
                               phases: Vec, k: real)
    requires phases != []
  {
    if |series| < 10 then k == 0.0
    else
      var scores := PhaseScores(sqrt, cos, sin, series, phases);
      exists lo, hi :: MiddleScores(scores, lo, hi) && k == if lo + hi < 0.0 then 0.0 else (lo + hi) / 2.0
  }

  ghost predicate MiddleScores(scores: Vec, lo: real, hi: real)
    requires scores != []
  {
    OrderStat(scores, (|scores| - 1) / 2, lo) && OrderStat(scores, |scores| / 2, hi)
  }

  /** There is one such k. */
  lemma ChaosScoreUnique(sqrt: real -> real, cos: real -> real, sin: real -> real, series: Vec, phases: Vec,
                         k: real, l: real)
    requires phases != []
    requires IsChaosScore(sqrt, cos, sin, series, phases, k) && IsChaosScore(sqrt, cos, sin, series, phases, l)
    ensures k == l
  {
    if |series| >= 10 {
      var scores := PhaseScores(sqrt, cos, sin, series, phases);
      var lo, hi :| MiddleScores(scores, lo, hi) && k == if lo + hi < 0.0 then 0.0 else (lo + hi) / 2.0;
      var lo', hi' :| MiddleScores(scores, lo', hi') && l == if lo' + hi' < 0.0 then 0.0 else (lo' + hi') / 2.0;
      OrderStatUnique(scores, (|scores| - 1) / 2, lo, lo');
      OrderStatUnique(scores, |scores| / 2, hi, hi');
    }
  }

  lemma OrderStatUnique(v: Vec, k: nat, x: real, y: real)
    requires k < |v| && OrderStat(v, k, x) && OrderStat(v, k, y)
    ensures x == y
  {
    OrderStatMonotone(v, k, x, k, y);
    OrderStatMonotone(v, k, y, k, x);
  }

  /** compute_K: the median of the phase scores, or 0 if that is negative.  The scores and
      their two middle order statistics are returned as ghosts. */
  method ComputeK(sqrt: real -> real, cos: real -> real, sin: real -> real, series: Vec, phasesIn: Vec)
    returns (k: real, ghost scores: Vec, ghost lo: real, ghost hi: real)
    requires IsSqrt(sqrt)
    ensures 0.0 <= k <= 1.0
    ensures IsChaosScore(sqrt, cos, sin, series, if phasesIn == [] then DefaultPhases() else phasesIn, k)
    ensures |series| >= 10 ==>
              && scores == PhaseScores(sqrt, cos, sin, series, Phases(phasesIn))
              && OrderStat(scores, (|scores| - 1) / 2, lo) && OrderStat(scores, |scores| / 2, hi)
              && k == if (lo + hi) / 2.0 < 0.0 then 0.0 else (lo + hi) / 2.0
  {
    scores, lo, hi := [], 0.0, 0.0;
    if |series| < 10 {
      return 0.0, [], lo, hi;
    }
    var phases := if phasesIn == [] then DefaultPhases() else phasesIn;
    var values := ScorePhases(sqrt, cos, sin, series, phases);
    scores := values;
    k, lo, hi := Median(values);
    PhaseScoresBounded(sqrt, cos, sin, series, phases);
    OrderStatBounded(values, (|values| - 1) / 2, lo, 1.0);
    OrderStatBounded(values, |values| / 2, hi, 1.0);
    if k < 0.0 {
      k := 0.0;
    }
    if k > 1.0 {
      k := 1.0;
    }
    assert MiddleScores(scores, lo, hi);
  }

  lemma OrderStatBounded(v: Vec, k: nat, x: real, bound: real)
    requires OrderStat(v, k, x) && k < |v|
    requires forall i :: 0 <= i < |v| ==> v[i] <= bound
    ensures x <= bound
  {
    if x > bound {
      TallyAll(v, e => e < x, true);
    }
  }

  /** The chaos verdict K > 0.7 on the default phases: at least ten of the twenty phases score
      above 0.7, and if eleven do the verdict follows. */
  lemma ChaosVerdict(scores: Vec, lo: real, hi: real, k: real)
    requires |scores| == N_PHASES
    requires OrderStat(scores, (|scores| - 1) / 2, lo) && OrderStat(scores, |scores| / 2, hi)
    requires k == if (lo + hi) / 2.0 < 0.0 then 0.0 else (lo + hi) / 2.0
    ensures k > 0.7 ==> Above(scores, 0.7) >= 10
    ensures Above(scores, 0.7) >= 11 ==> k > 0.7
  {
    MedianAbove(scores, 10, lo, hi, CHAOS_THRESHOLD);
  }

  // ---- Linear regression -------------------------------------------------------------

  /** The errors y_i - (a + t x_i) of a line. */
  function Errors(x: Vec, y: Vec, a: real, t: real): (e: Vec)
    requires |x| == |y|
    ensures |e| == |x|
  {
    seq(|x|, i requires 0 <= i < |x| => y[i] - a - t * x[i])
  }

  function SquaredError(x: Vec, y: Vec, a: real, t: real): real
    requires |x| == |y|
  {
    Dot(Errors(x, y, a, t), Errors(x, y, a, t))
  }

  function Times(n: nat, m: real): real {
    if n == 0 then 0.0 else Times(n - 1, m) + m
  }

  lemma {:induction false} TimesIs(n: nat, m: real, nm: real)
    requires nm == n as real * m
    ensures Times(n, m) == nm
  {
    if n > 0 {
      StepFactor(n as real, m, nm, (n - 1) as real * m);
      TimesIs(n - 1, m, (n - 1) as real * m);
    }
  }

  lemma {:induction false} CentredSum(x: Vec, m: real, n: nat)
    requires n <= |x|
    ensures Sum(Centred(x, m), n) == Sum(x, n) - Times(n, m)
  {
    if n > 0 {
      CentredSum(x, m, n - 1);
    }
  }

  lemma TimesAverage(sum: real, n: nat)
    requires n > 0
    ensures Times(n, Average(sum, n)) == sum
  {
    QuotientTimes(sum, n as real, Average(sum, n));
    TimesIs(n, Average(sum, n), sum);
  }

  /** The line of slope s through the point of means: its intercept and its squared error. */
  function Intercept(x: Vec, y: Vec, s: real): real
    requires |x| == |y| && |x| > 0
  {
    Mean(y) - s * Mean(x)
  }

  function FittedError(x: Vec, y: Vec, s: real): real
    requires |x| == |y| && |x| > 0
  {
    SquaredError(x, y, Intercept(x, y, s), s)
  }

  lemma CentredSumIsZero(x: Vec)
    requires |x| > 0
    ensures Sum(Centred(x, Mean(x)), |x|) == 0.0
  {
    CentredSum(x, Mean(x), |x|);
    TimesAverage(Sum(x, |x|), |x|);
  }

  lemma {:induction false} MinusSum(u: Vec, v: Vec, t: real, n: nat)
    requires n <= |u| == |v|
    ensures Sum(Minus(v, t, u), n) == Sum(v, n) - t * Sum(u, n)
  {
    if n > 0 {
      MinusSum(u, v, t, n - 1);
      TimesSum(t, Sum(u, n - 1), u[n - 1]);
    }
  }

  lemma ErrorSquaredAt(x: Vec, mx: real, y: Vec, my: real, a: real, t: real, c: real, k: real, m: real, i: nat)
    requires i < |x| == |y| && c == my - a - t * mx && k == 2.0 * c && m == c * c
    ensures var w := Minus(Centred(y, my), t, Centred(x, mx));
            var e := Errors(x, y, a, t);
            Products(e, e)[i] == Products(w, w)[i] + k * w[i] + m
  {
    var w := Minus(Centred(y, my), t, Centred(x, mx));
    var e := Errors(x, y, a, t);
    OffsetStep(x[i], mx, y[i], my, a, t);
    SquareOfOffset(e[i], w[i], c, Products(e, e)[i], Products(w, w)[i], k, m);
  }

  lemma ErrorsCombine(x: Vec, mx: real, y: Vec, my: real, a: real, t: real, c: real, k: real, m: real, ones: Vec)
    requires |x| == |y| && c == my - a - t * mx && k == 2.0 * c && m == c * c && ones == Constant(1.0, |x|)
    ensures var w := Minus(Centred(y, my), t, Centred(x, mx));
            var e := Errors(x, y, a, t);
            Combines(Products(e, e), Products(w, w), k, w, m, ones)
  {
    var w, e := Minus(Centred(y, my), t, Centred(x, mx)), Errors(x, y, a, t);
    forall i | 0 <= i < |x| ensures Products(e, e)[i] == Products(w, w)[i] + k * w[i] + m * ones[i] {
      ErrorSquaredAt(x, mx, y, my, a, t, c, k, m, i);
    }
  }

  lemma OffsetOnlyAdds(total: real, ww: real, k: real, sw: real, m: real, so: real, t: real, su: real, sv: real)
    requires total == ww + k * sw + m * so && sw == sv - t * su
    requires su == 0.0 && sv == 0.0 && so >= 0.0 && m >= 0.0
    ensures total >= ww
    ensures m == 0.0 ==> total == ww
  {
    var kw, mo, tu := k * sw, m * so, t * su;
    TimesValue(t, su, tu);
    TimesValue(k, sw, kw);
    ProductNonNegative(m, so, mo);
    TimesValue(so, m, mo);
  }

  /** The errors of a line are its errors about the means plus a constant offset c, so their
      squares add up to the squares about the means and c squared for each point. */
  lemma LineErrorAtMeans(x: Vec, y: Vec, a: real, t: real, c: real)
    requires |x| == |y| && |x| > 0 && c == Mean(y) - a - t * Mean(x)
    ensures var w := Minus(Centred(y, Mean(y)), t, Centred(x, Mean(x)));
            && Dot(w, w) <= SquaredError(x, y, a, t)
            && (c == 0.0 ==> SquaredError(x, y, a, t) == Dot(w, w))
  {
    var u, v := Centred(x, Mean(x)), Centred(y, Mean(y));
    var w, e, ones := Minus(v, t, u), Errors(x, y, a, t), Constant(1.0, |x|);
    var k, m := 2.0 * c, c * c;
    SquareSign(c, m);
    TimesValue(c, c, m);
    SumOfConstant(ones, 1.0, |x|);
    CentredSumIsZero(x);
    CentredSumIsZero(y);
    MinusSum(u, v, t, |x|);
    ErrorsCombine(x, Mean(x), y, Mean(y), a, t, c, k, m, ones);
    SumCombines(Products(e, e), Products(w, w), k, w, m, ones, |x|);
    OffsetOnlyAdds(Dot(e, e), Dot(w, w), k, Sum(w, |x|), m, Sum(ones, |x|), t, Sum(u, |x|), Sum(v, |x|));
  }

  lemma SlopeMinimises(u: Vec, v: Vec, s: real, t: real)
    requires |u| == |v| && Dot(u, u) > 0.0 && s == Dot(u, v) / Dot(u, u)
    ensures Dot(Minus(v, s, u), Minus(v, s, u)) <= Dot(Minus(v, t, u), Minus(v, t, u))
  {
    MinusSquared(u, v, t, -2.0 * t, t * t);
    MinusSquared(u, v, s, -2.0 * s, s * s);
    VertexIsLowest(Dot(v, v), Dot(u, v), Dot(u, u), s, t);
  }

  /** The slope Cov/Var, with the line through the means, has the least squared error of all
      lines. */
  lemma SlopeIsLeastSquares(x: Vec, y: Vec, s: real, a: real, t: real)
    requires |x| == |y| && |x| > 0
    requires var u, v := Centred(x, Mean(x)), Centred(y, Mean(y));
             Dot(u, u) > 0.0 && s == Dot(u, v) / Dot(u, u)
    ensures FittedError(x, y, s) <= SquaredError(x, y, a, t)
  {
    LineErrorAtMeans(x, y, a, t, Mean(y) - a - t * Mean(x));
    LineErrorAtMeans(x, y, Intercept(x, y, s), s, 0.0);
    SlopeMinimises(Centred(x, Mean(x)), Centred(y, Mean(y)), s, t);
  }

  /** The regression at the end of compute_lyapunov: Cov / Var, undefined when Var vanishes. */
  method RegressionSlope(x: Vec, y: Vec) returns (defined: bool, slope: real)
    requires |x| == |y| && |x| >= 2
    ensures defined <==> Dot(Centred(x, Mean(x)), Centred(x, Mean(x))) >= CUTOFF
    ensures defined ==> forall a, t :: FittedError(x, y, slope) <= SquaredError(x, y, a, t)
  {
    var cov, variance, _ := Moments(x, Mean(x), y, Mean(y));
    if variance < CUTOFF {
      return false, 0.0;
    }
    defined, slope := true, cov / variance;
    forall a, t ensures FittedError(x, y, slope) <= SquaredError(x, y, a, t) {
      SlopeIsLeastSquares(x, y, slope, a, t);
    }
  }

  /** The points of that fit: step s + 1 and its average, for each step that has observations. */
  function Abscissae(count: seq<nat>): (x: Vec)
    ensures |x| <= |count|
  {
    if count == [] then []
    else
      var n := |count| - 1;
      Abscissae(count[..n]) + (if count[n] > 0 then [(n + 1) as real] else [])
  }

  function Ordinates(sums: Vec, count: seq<nat>): (y: Vec)
    requires |sums| == |count|
    ensures |y| == |Abscissae(count)|
  {
    if count == [] then []
    else
      var n := |count| - 1;
      Ordinates(sums[..n], count[..n]) + (if count[n] > 0 then [Average(sums[n], count[n])] else [])
  }

  /** Point i of the fit is the one of step s + 1: the average of the logarithms observed there. */
  ghost predicate PointOf(sums: Vec, count: seq<nat>, i: nat, s: nat)
    requires |sums| == |count| && i < |Abscissae(count)| && s < |count|
  {
    && count[s] > 0 && Abscissae(count)[i] == (s + 1) as real
    && Ordinates(sums, count)[i] * count[s] as real == sums[s]
  }

  ghost predicate IsStep(sums: Vec, count: seq<nat>, i: nat)
    requires |sums| == |count| && i < |Abscissae(count)|
  {
    exists s: nat :: s < |count| && PointOf(sums, count, i, s)
  }

  ghost predicate IsFitted(sums: Vec, count: seq<nat>, s: nat)
    requires |sums| == |count| && s < |count|
  {
    exists i: nat :: i < |Abscissae(count)| && PointOf(sums, count, i, s)
  }

  lemma PointMoves(sums: Vec, count: seq<nat>, i: nat, s: nat)
    requires |sums| == |count| > 0 && s < |count| - 1
    requires i < |Abscissae(count[..|count| - 1])| && PointOf(sums[..|count| - 1], count[..|count| - 1], i, s)
    ensures PointOf(sums, count, i, s)
  {
  }

  lemma LastPoint(sums: Vec, count: seq<nat>)
    requires |sums| == |count| > 0 && count[|count| - 1] > 0
    ensures |Abscissae(count)| > 0 && PointOf(sums, count, |Abscissae(count)| - 1, |count| - 1)
  {
    var n := |count| - 1;
    QuotientTimes(sums[n], count[n] as real, Average(sums[n], count[n]));
  }

  /** The points of the fit are exactly those of the steps with observations. */
  lemma {:induction false} PointsAreSteps(sums: Vec, count: seq<nat>)
    requires |sums| == |count|
    ensures forall i: nat :: i < |Abscissae(count)| ==> IsStep(sums, count, i)
    ensures forall s: nat :: s < |count| && count[s] > 0 ==> IsFitted(sums, count, s)
    decreases |count|
  {
    if count != [] {
      var n := |count| - 1;
      PointsAreSteps(sums[..n], count[..n]);
      if count[n] > 0 {
        LastPoint(sums, count);
      }
      forall i: nat | i < |Abscissae(count)| ensures IsStep(sums, count, i) {
        StepMoves(sums, count, i);
      }
      forall s: nat | s < |count| && count[s] > 0 ensures IsFitted(sums, count, s) {
        FittedMoves(sums, count, s);
      }
    }
  }

  lemma StepMoves(sums: Vec, count: seq<nat>, i: nat)
    requires |sums| == |count| > 0 && i < |Abscissae(count)|
    requires i < |Abscissae(count[..|count| - 1])| ==> IsStep(sums[..|count| - 1], count[..|count| - 1], i)
    ensures IsStep(sums, count, i)
  {
    var n := |count| - 1;
    if i < |Abscissae(count[..n])| {
      assert IsStep(sums[..n], count[..n], i);
      var s: nat :| s < n && PointOf(sums[..n], count[..n], i, s);
      PointMoves(sums, count, i, s);
    } else {
      LastPoint(sums, count);
    }
  }

  lemma FittedMoves(sums: Vec, count: seq<nat>, s: nat)
    requires |sums| == |count| > 0 && s < |count| && count[s] > 0
    requires s < |count| - 1 ==> IsFitted(sums[..|count| - 1], count[..|count| - 1], s)
    ensures IsFitted(sums, count, s)
  {
    var n := |count| - 1;
    if s < n {
      var i: nat :| i < |Abscissae(count[..n])| && PointOf(sums[..n], count[..n], i, s);
      PointMoves(sums, count, i, s);
    } else {
      LastPoint(sums, count);
    }
  }

  /** Values at least one apart, none above `top`. */
  ghost predicate SpacedUpTo(x: Vec, top: real) {
    && (forall i :: 0 <= i < |x| ==> x[i] <= top)
    && (forall i, j :: 0 <= i < j < |x| ==> x[j] - x[i] >= 1.0)
  }

  lemma SpacedAppend(x: Vec, top: real, e: real)
    requires SpacedUpTo(x, top) && e == top + 1.0
    ensures SpacedUpTo(x, e) && SpacedUpTo(x + [e], e)
  {
    var y := x + [e];
    forall i, j | 0 <= i < j < |y| ensures y[j] - y[i] >= 1.0 {
      assert y[i] == x[i];
      assert j < |x| ==> y[j] == x[j];
    }
  }

  lemma {:induction false} AbscissaeSpaced(count: seq<nat>, n: nat)
    requires |count| == n
    ensures SpacedUpTo(Abscissae(count), n as real)
  {
    if n > 0 {
      AbscissaeSpaced(count[..n - 1], n - 1);
      SpacedAppend(Abscissae(count[..n - 1]), (n - 1) as real, n as real);
    }
  }

  /** The abscissae are increasing whole numbers, so with two points the guard against a vanishing
      variance never fires. */
  lemma VarianceGuardIsDead(count: seq<nat>)
    requires |Abscissae(count)| >= 2
    ensures var x := Abscissae(count); Dot(Centred(x, Mean(x)), Centred(x, Mean(x))) >= 0.5
  {
    AbscissaeSpaced(count, |count|);
    SpreadAboutAnything(Abscissae(count), Mean(Abscissae(count)));
  }

  /** The end of compute_lyapunov, from the sums of log-divergences and their counts: a number
      exactly when two steps have observations, and then the least-squares slope. */
  method DivergenceSlope(sums: Vec, count: seq<nat>) returns (defined: bool, slope: real)
    requires |sums| == |count|
    ensures defined <==> |Abscissae(count)| >= 2
    ensures defined ==>
              forall a, t :: FittedError(Abscissae(count), Ordinates(sums, count), slope)
                             <= SquaredError(Abscissae(count), Ordinates(sums, count), a, t)
  {
    var x, y: Vec := [], [];
    for s := 0 to |count|
      invariant x == Abscissae(count[..s]) && y == Ordinates(sums[..s], count[..s])
    {
      assert count[..s + 1][..s] == count[..s] && sums[..s + 1][..s] == sums[..s];
      if count[s] > 0 {
        x := x + [(s + 1) as real];
        y := y + [Average(sums[s], count[s])];
      }
    }
    assert count[..|count|] == count && sums[..|count|] == sums;
    if |x| < 2 {
      return false, 0.0;
    }
    VarianceGuardIsDead(count);
    defined, slope := RegressionSlope(x, y);
  }

  lemma SpreadAboutAnything(x: Vec, m: real)
    requires |x| >= 2 && x[1] - x[0] >= 1.0
    ensures Dot(Centred(x, m), Centred(x, m)) >= 0.5
  {
    var u := Centred(x, m);
    var p := Products(u, u);
    SquaresNonNegative(u);
    assert Sum(p, 2) == Sum(p, 1) + p[1] && Sum(p, 1) == Sum(p, 0) + p[0];
    assert u[1] - u[0] == x[1] - x[0];
    SpreadOfTwo(u[0], u[1], p[0], p[1]);
    assert Sum(p, 2) >= 0.5;
    SumGrows(p, 2, |x|);
    assert Sum(p, 2) <= Sum(p, |x|);
    assert Dot(u, u) >= 0.5;
  }

  // ---- Windows -----------------------------------------------------------------------

  /** The buffer and the windows emitted so far. */
  datatype Detector = Detector(windowSize: nat, samples: Vec, emitted: seq<Vec>)

  function Flush(d: Detector, force: bool): Detector {
    if |d.samples| < 10 && !force then d
    else if d.samples == [] then d
    else d.(samples := [], emitted := d.emitted + [d.samples])
  }

  function Push(d: Detector, value: real): Detector {
    var d' := d.(samples := d.samples + [value]);
    if |d'.samples| >= d.windowSize then Flush(d', false) else d'
  }

  datatype Step = OnPush(value: real) | OnFlush(force: bool)

  function Run(d: Detector, steps: seq<Step>): Detector {
    if steps == [] then d
    else
      var before := Run(d, steps[..|steps| - 1]);
      match steps[|steps| - 1]
      case OnPush(value) => Push(before, value)
      case OnFlush(force) => Flush(before, force)
  }

  function Flat(windows: seq<Vec>): Vec {
    if windows == [] then [] else Flat(windows[..|windows| - 1]) + windows[|windows| - 1]
  }

  function Pushed(steps: seq<Step>): Vec {
    if steps == [] then []
    else
      var s := steps[|steps| - 1];
      Pushed(steps[..|steps| - 1]) + (if s.OnPush? then [s.value] else [])
  }

  /** A flush emits what is pending from ten samples on, and by force from one sample on. */
  lemma FlushEmits(d: Detector, force: bool)
    ensures |d.samples| >= 10 || (force && |d.samples| >= 1) ==>
              Flush(d, force) == Detector(d.windowSize, [], d.emitted + [d.samples])
    ensures |d.samples| == 0 || (!force && |d.samples| <= 9) ==> Flush(d, force) == d
  {
  }

  lemma FlushKeeps(d: Detector, force: bool)
    ensures Flat(Flush(d, force).emitted) + Flush(d, force).samples == Flat(d.emitted) + d.samples
  {
    assert (d.emitted + [d.samples])[..|d.emitted|] == d.emitted;
  }

  /** Every sample pushed is in exactly one emitted window or still pending, in order. */
  lemma {:induction false} SamplesConserved(windowSize: nat, steps: seq<Step>)
    ensures var d := Run(Detector(windowSize, [], []), steps);
            Flat(d.emitted) + d.samples == Pushed(steps)
  {
    if steps != [] {
      var before := Run(Detector(windowSize, [], []), steps[..|steps| - 1]);
      SamplesConserved(windowSize, steps[..|steps| - 1]);
      match steps[|steps| - 1]
      case OnPush(value) =>
        FlushKeeps(before.(samples := before.samples + [value]), false);
      case OnFlush(force) => FlushKeeps(before, force);
    }
  }

  /** With pushes alone every window has exactly max(10, window size) samples, and fewer than
      that are pending. */
  lemma {:induction false} WindowLength(windowSize: nat, steps: seq<Step>)
    requires forall i :: 0 <= i < |steps| ==> steps[i].OnPush?
    ensures var d := Run(Detector(windowSize, [], []), steps);
            var size := if windowSize > 10 then windowSize else 10;
            && |d.samples| < size && d.windowSize == windowSize
            && forall i :: 0 <= i < |d.emitted| ==> |d.emitted[i]| == size
  {
    if steps != [] {
      WindowLength(windowSize, steps[..|steps| - 1]);
    }
  }

  /** What compute_lyapunov gives for a window: a number, or NaN. */
  datatype Exponent = NaN | Exponent(value: real)

  /** What the window callback is called with, if it is called. */
  datatype Window =
    | NoWindow
    | Window(index: nat, sampleCount: nat, k: real, lambda1: Exponent, anomalous: bool, synthetic: bool)

  class ChaosDetector {
    const log: Log
    const windowSize: nat
    const lyapunov: Vec -> Exponent
    const sqrt: real -> real
    const cos: real -> real
    const sin: real -> real
    var samples: Vec
    var windowIndex: nat
    var anySynthetic: bool
    ghost var emitted: seq<Vec>

    ghost function Model(): Detector
      reads this
    {
      Detector(windowSize, samples, emitted)
    }

    constructor (log: Log, windowSize: nat, lyapunov: Vec -> Exponent,
                 sqrt: real -> real, cos: real -> real, sin: real -> real)
      ensures Model() == Detector(windowSize, [], [])
      ensures this.log == log && this.lyapunov == lyapunov
      ensures this.sqrt == sqrt && windowIndex == 0 && !anySynthetic
    {
      this.log, this.lyapunov := log, lyapunov;
      this.windowSize, this.sqrt, this.cos, this.sin := windowSize, sqrt, cos, sin;
      samples, windowIndex, anySynthetic, emitted := [], 0, false, [];
    }

    method FlushWindow(force: bool) returns (w: Window)
      requires IsSqrt(sqrt)
      modifies this, log
      ensures Model() == Flush(old(Model()), force)
      ensures log.entries == old(log.entries) + (if w.Window? then [ChaosWindowClosed] else [])
      ensures w.Window? <==> |emitted| > |old(emitted)|
      ensures w.Window? ==>
                && w.index == old(windowIndex) && windowIndex == w.index + 1
                && w.sampleCount == |old(samples)| && w.synthetic == old(anySynthetic)
                && w.lambda1 == lyapunov(old(samples))
                && IsChaosScore(sqrt, cos, sin, old(samples), DefaultPhases(), w.k)
                && 0.0 <= w.k <= 1.0 && (w.anomalous <==> w.k > 0.7)
                && (w.sampleCount < 10 ==> !w.anomalous)
                && (w.anomalous ==>
                      Above(PhaseScores(sqrt, cos, sin, old(samples), DefaultPhases()), 0.7) >= 10)
                && !anySynthetic
      ensures w.NoWindow? ==> windowIndex == old(windowIndex) && anySynthetic == old(anySynthetic)
    {
      if |samples| < 10 && !force {
        return NoWindow;
      }
      if samples == [] {
        return NoWindow;
      }
      var k, scores, lo, hi := ComputeK(sqrt, cos, sin, samples, []);
      if |samples| >= 10 {
        ChaosVerdict(scores, lo, hi, k);
      }
      w := Window(windowIndex, |samples|, k, lyapunov(samples), k > CHAOS_THRESHOLD, anySynthetic);
      log.Add(ChaosWindowClosed);
      windowIndex := windowIndex + 1;
      emitted := emitted + [samples];
      samples := [];
      anySynthetic := false;
    }

    method PushSample(value: real, synthetic: bool) returns (w: Window)
      requires IsSqrt(sqrt)
      modifies this, log
      ensures Model() == Push(old(Model()), value)
      ensures log.entries == old(log.entries) + (if w.Window? then [ChaosWindowClosed] else [])
      ensures w.Window? <==> |emitted| > |old(emitted)|
      ensures w.Window? ==>
                && w.sampleCount == |old(samples)| + 1 && (w.synthetic <==> old(anySynthetic) || synthetic)
                && w.index == old(windowIndex) && w.lambda1 == lyapunov(old(samples) + [value])
                && IsChaosScore(sqrt, cos, sin, old(samples) + [value], DefaultPhases(), w.k)
                && (w.anomalous <==> w.k > 0.7) && !anySynthetic
      ensures windowIndex == old(windowIndex) + (if w.Window? then 1 else 0)
      ensures w.NoWindow? ==> (anySynthetic <==> old(anySynthetic) || synthetic)
    {
      samples := samples + [value];
      if synthetic {
        anySynthetic := true;
      }
      w := NoWindow;
      if |samples| >= windowSize {
        w := FlushWindow(false);
      }
    }
  }
}
