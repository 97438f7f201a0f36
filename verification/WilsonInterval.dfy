/** The Wilson score interval, in exact reals. */
module WilsonInterval {
  import opened Reals

  datatype Interval = Interval(low: real, high: real)

  function Radicand(k: nat, n: nat, z: real): real
    requires n > 0
  {
    var p, m := k as real / n as real, n as real;
    p * (1.0 - p) / m + z * z / (4.0 * Product(m, m))
  }

  /** The endpoints before clamping; `root` is the square root of the radicand. */
  function Raw(k: nat, n: nat, z: real, root: real): Interval
    requires n > 0
  {
    var p, m := k as real / n as real, n as real;
    var denom := Denominator(n, z);
    var center := (p + z * z / (2.0 * m)) / denom;
    var half := z * root / denom;
    Interval(center - half, center + half)
  }

  function Denominator(n: nat, z: real): (r: real)
    requires n > 0
    ensures r >= 1.0
  {
    assert z * z >= 0.0;
    assert z * z / n as real >= 0.0;
    1.0 + z * z / n as real
  }

  function WilsonCi(k: nat, n: nat, z: real, root: real): Interval {
    if n == 0 then Interval(0.0, 1.0)
    else
      var raw := Raw(k, n, z, root);
      Interval(if raw.low > 0.0 then raw.low else 0.0, if raw.high < 1.0 then raw.high else 1.0)
  }

  /** The lower endpoint, with `q` for z^2 / n and `h` for z times the root. */
  lemma LowEnd(p: real, q: real, h: real)
    requires 0.0 <= p <= 1.0 && q > 0.0 && h >= 0.0
    requires h * h == p * (1.0 - p) * q + q * q / 4.0
    ensures 0.0 <= p + q / 2.0 - h <= p * (1.0 + q)
    ensures p > 0.0 ==> p + q / 2.0 - h > 0.0
  {
    AboveZero(p, q, h);
    BelowShare(p, q, h);
  }

  lemma AboveZero(p: real, q: real, h: real)
    requires 0.0 <= p && q > 0.0 && h * h == p * (1.0 - p) * q + q * q / 4.0
    ensures h <= p + q / 2.0
    ensures p > 0.0 ==> h < p + q / 2.0
  {
    var gap := Product(p, Product(p, 1.0 + q));
    CenterIdentity(p, q);
    SquareGap(h, p + q / 2.0, gap);
  }

  /** The center squared exceeds the radicand by p^2 (1 + q). */
  lemma CenterIdentity(p: real, q: real)
    ensures (p + q / 2.0) * (p + q / 2.0) == p * (1.0 - p) * q + q * q / 4.0 + p * (p * (1.0 + q))
  {
  }

  lemma BelowShare(p: real, q: real, h: real)
    requires 0.0 <= p <= 1.0 && q > 0.0 && h >= 0.0 && h * h == p * (1.0 - p) * q + q * q / 4.0
    ensures q / 2.0 - p * q <= h
  {
    var d, u := q / 2.0 - p * q, p * (1.0 - p);
    MulNonNegative(p, 1.0 - p);
    MulNonNegative(u, q);
    MulNonNegative(u * q, q);
    var r := p * q;
    assert d * d == q * q / 4.0 - q * r + r * r;
    assert u * q == r - r * p;
    assert u * q * q == q * r - r * r;
    SquareOrder(d, h);
  }

  lemma InQ(k: nat, n: nat, z: real, root: real) returns (p: real, q: real, h: real)
    requires k <= n && n > 0 && z > 0.0 && root >= 0.0 && root * root == Radicand(k, n, z)
    ensures p == k as real / n as real && 0.0 <= p <= 1.0 && h == z * root
    ensures q > 0.0 && h >= 0.0 && h * h == p * (1.0 - p) * q + q * q / 4.0
    ensures Denominator(n, z) == 1.0 + q
    ensures Raw(k, n, z, root) == Interval((p + q / 2.0) / (1.0 + q) - h / (1.0 + q),
      (p + q / 2.0) / (1.0 + q) + h / (1.0 + q))
  {
    var m, zz := n as real, z * z;
    p, q, h := k as real / m, zz / m, z * root;
    Share(k as real, m);
    SquareShare(z, m);
    MulNonNegative(z, root);
    SquaresAt(k, n, z, root);
    Halved(z, p, m);
  }

  lemma SquaresAt(k: nat, n: nat, z: real, root: real)
    requires n > 0 && root * root == Radicand(k, n, z)
    ensures var p, q := k as real / n as real, z * z / n as real;
            (z * root) * (z * root) == p * (1.0 - p) * q + q * q / 4.0
  {
    var m := n as real;
    Squares(z, root, k as real / m, m);
  }

  lemma Halved(z: real, p: real, m: real)
    requires m > 0.0
    ensures p + z * z / (2.0 * m) == p + z * z / m / 2.0
  {
    HalfOf(z * z, m);
  }

  lemma Share(a: real, m: real)
    requires m > 0.0 && a >= 0.0
    ensures 0.0 <= a / m
    ensures a > 0.0 ==> a / m > 0.0
    ensures a <= m ==> a / m <= 1.0
  {
    MulDiv(a, m);
    CancelOrder(0.0, a / m, m);
    CancelOrder(a / m, 1.0, m);
  }

  lemma SquareShare(z: real, m: real)
    requires m > 0.0 && z > 0.0
    ensures z * z / m > 0.0
  {
    Share(z, m);
    var u := z / m;
    MulPositive(z, u);
    MulDiv(z, m);
    MulDiv(z * z, m);
    assert z * u * m == z * (u * m);
    CancelEq(z * z / m, z * u, m);
  }

  lemma HalfOf(a: real, m: real)
    requires m > 0.0
    ensures a / (2.0 * m) == a / m / 2.0
  {
    var t, q := a / (2.0 * m), a / m;
    MulDiv(a, 2.0 * m);
    MulDiv(a, m);
    assert 2.0 * t * m == q * m;
    CancelEq(2.0 * t, q, m);
  }

  lemma Squares(z: real, root: real, p: real, m: real)
    requires m > 0.0 && root * root == p * (1.0 - p) / m + z * z / (4.0 * Product(m, m))
    ensures (z * root) * (z * root) == p * (1.0 - p) * (z * z / m) + (z * z / m) * (z * z / m) / 4.0
  {
    var zz, pp := z * z, p * (1.0 - p);
    MulDiv(pp, m);
    MulDiv(zz, m);
    var mm := Product(m, m);
    MulDiv(zz, 4.0 * mm);
    SquareOfProduct(z, root);
    RootScaled(zz, root * root, pp, m, mm, pp / m, zz / (4.0 * mm), zz / m);
  }

  lemma SquareOfProduct(x: real, y: real)
    ensures (x * y) * (x * y) == (x * x) * (y * y)
  {
  }

  lemma RootScaled(zz: real, rr: real, pp: real, m: real, mm: real, a: real, b: real, q: real)
    requires m > 0.0 && rr == a + b && a * m == pp && mm == m * m && b * (4.0 * mm) == zz && q * m == zz
    ensures zz * rr == pp * q + q * q / 4.0
  {
    assert (4.0 * b * m) * m == q * m;
    CancelEq(4.0 * b * m, q, m);
    assert zz * rr == zz * a + zz * b;
    assert zz * a == q * (a * m);
    assert zz * b == q * (b * m);
  }

  /**
   For every 0 <= k <= n with n > 0 and z > 0 the exact endpoints already lie in [0, 1] and
   enclose k / n, so clamping changes nothing; an endpoint touches its limit only when k does.
   */
  lemma WilsonNeedsNoClamp(k: nat, n: nat, z: real, root: real)
    requires k <= n && n > 0 && z > 0.0 && root >= 0.0 && root * root == Radicand(k, n, z)
    ensures WilsonCi(k, n, z, root) == Raw(k, n, z, root)
    ensures var r := Raw(k, n, z, root);
            0.0 <= r.low <= k as real / n as real <= r.high <= 1.0
    ensures Raw(k, n, z, root).low == 0.0 ==> k == 0
    ensures Raw(k, n, z, root).high == 1.0 ==> k == n
  {
    var p, q, h := InQ(k, n, z, root);
    LowEnd(p, q, h);
    assert (1.0 - p) * (1.0 - (1.0 - p)) == p * (1.0 - p);
    LowEnd(1.0 - p, q, h);
    Divided(p, q, h);
    assert p == 0.0 ==> k == 0;
    assert p == 1.0 ==> k as real == n as real;
  }

  lemma Divided(p: real, q: real, h: real)
    requires q > 0.0
    requires 0.0 <= p + q / 2.0 - h <= p * (1.0 + q)
    requires 0.0 <= 1.0 - p + q / 2.0 - h <= (1.0 - p) * (1.0 + q)
    ensures var d := 1.0 + q;
            0.0 <= (p + q / 2.0) / d - h / d <= p <= (p + q / 2.0) / d + h / d <= 1.0
    ensures p + q / 2.0 - h > 0.0 ==> (p + q / 2.0) / (1.0 + q) - h / (1.0 + q) > 0.0
    ensures 1.0 - p + q / 2.0 - h > 0.0 ==> (p + q / 2.0) / (1.0 + q) + h / (1.0 + q) < 1.0
  {
    var d, c := 1.0 + q, p + q / 2.0;
    MulDiv(c, d);
    MulDiv(h, d);
    Ordered(c / d, h / d, c, h, p, d);
  }

  lemma Ordered(x: real, y: real, c: real, h: real, p: real, d: real)
    requires d > 0.0 && x * d == c && y * d == h
    requires 0.0 <= c - h <= p * d && 0.0 <= d - c - h && p * d <= c + h
    ensures 0.0 <= x - y <= p <= x + y <= 1.0
    ensures c - h > 0.0 ==> x - y > 0.0
    ensures c + h < d ==> x + y < 1.0
  {
    assert (x - y) * d == c - h && (x + y) * d == c + h;
    CancelOrder(0.0, x - y, d);
    CancelOrder(x - y, p, d);
    CancelOrder(p, x + y, d);
    CancelOrder(x + y, 1.0, d);
  }

  // ----- the endpoints are those of the score test -----

  /** Completing the square in the score equation. */
  lemma Completed(p: real, q: real, x: real)
    ensures var u := (1.0 + q) * x - (p + q / 2.0);
            (1.0 + q) * ((x - p) * (x - p) - q * (x * (1.0 - x))) ==
              u * u - (p * (1.0 - p) * q + q * q / 4.0)
  {
    var d, c := 1.0 + q, p + q / 2.0;
    CenterIdentity(p, q);
    var u, xx := d * x - c, x * x;
    assert u * u == d * d * xx - 2.0 * d * c * x + c * c by { SquareOfDifference(d, x, c); }
    assert (x - p) * (x - p) == xx - 2.0 * (p * x) + p * p;
    assert q * (x * (1.0 - x)) == q * x - q * xx;
    Assembled(p, q, x, xx);
  }

  lemma SquareOfDifference(d: real, x: real, c: real)
    ensures (d * x - c) * (d * x - c) == d * d * (x * x) - 2.0 * d * c * x + c * c
  {
    var y := d * x;
    assert (y - c) * (y - c) == y * y - 2.0 * (y * c) + c * c;
    assert y * y == d * d * (x * x);
  }

  lemma Assembled(p: real, q: real, x: real, xx: real)
    ensures (1.0 + q) * (xx - 2.0 * (p * x) + p * p - (q * x - q * xx)) ==
      (1.0 + q) * (1.0 + q) * xx - 2.0 * (1.0 + q) * (p + q / 2.0) * x + p * (p * (1.0 + q))
  {
    var d := 1.0 + q;
    assert xx - 2.0 * (p * x) + p * p - (q * x - q * xx) == d * xx - 2.0 * ((p + q / 2.0) * x) + p * p;
    assert d * (d * xx - 2.0 * ((p + q / 2.0) * x) + p * p) == d * d * xx - 2.0 * d * (p + q / 2.0) * x + d * (p * p);
  }

  lemma RootsOfSquare(u: real, h: real)
    ensures u * u == h * h <==> u == h || u == -h
  {
    assert u * u - h * h == (u - h) * (u + h);
  }

  lemma AtEnd(x: real, c: real, h: real, d: real)
    requires d > 0.0
    ensures x == c / d + h / d <==> d * x - c == h
    ensures x == c / d - h / d <==> d * x - c == -h
  {
    MulDiv(c, d);
    MulDiv(h, d);
    var a, b := c / d, h / d;
    if d * x - c == h {
      assert x * d == (a + b) * d;
      CancelEq(x, a + b, d);
    }
    if d * x - c == -h {
      assert x * d == (a - b) * d;
      CancelEq(x, a - b, d);
    }
  }

  /** The squared distance of two proportions, and the spread of one. */
  function Apart(x: real, p: real): real {
    (x - p) * (x - p)
  }

  function Spread(x: real): real {
    x * (1.0 - x)
  }

  /** The endpoints are exactly the proportions from which k of n lies z standard errors away. */
  lemma WilsonIsScoreInterval(k: nat, n: nat, z: real, root: real, x: real)
    requires k <= n && n > 0 && z > 0.0 && root >= 0.0 && root * root == Radicand(k, n, z)
    ensures var r := Raw(k, n, z, root);
            x == r.low || x == r.high <==>
              n as real * Apart(x, k as real / n as real) == z * z * Spread(x)
  {
    var p, q, h := InQ(k, n, z, root);
    var a, b, zz, m := Apart(x, p), Spread(x), z * z, n as real;
    EndsBySpread(p, q, h, x, a, b);
    QIs(k, n, z, q);
    ScaledScore(a, q, b, m, zz);
  }

  lemma QIs(k: nat, n: nat, z: real, q: real)
    requires n > 0 && Denominator(n, z) == 1.0 + q
    ensures q * n as real == z * z
  {
    MulDiv(z * z, n as real);
  }

  lemma EndsIff(p: real, q: real, h: real, x: real)
    requires q > 0.0 && h * h == p * (1.0 - p) * q + q * q / 4.0
    ensures var d, c := 1.0 + q, p + q / 2.0;
            x == c / d - h / d || x == c / d + h / d <==> (x - p) * (x - p) - q * (x * (1.0 - x)) == 0.0
  {
    var d, c := 1.0 + q, p + q / 2.0;
    var u, e := d * x - c, (x - p) * (x - p) - q * (x * (1.0 - x));
    Completed(p, q, x);
    assert d * e == u * u - h * h;
    RootsOfSquare(u, h);
    AtEnd(x, c, h, d);
    ZeroFactor(d, e);
  }

  lemma EndsBySpread(p: real, q: real, h: real, x: real, a: real, b: real)
    requires q > 0.0 && h * h == p * (1.0 - p) * q + q * q / 4.0 && a == Apart(x, p) && b == Spread(x)
    ensures var d, c := 1.0 + q, p + q / 2.0;
            x == c / d - h / d || x == c / d + h / d <==> a - q * b == 0.0
  {
    EndsIff(p, q, h, x);
  }

  lemma ZeroFactor(d: real, e: real)
    requires d > 0.0
    ensures d * e == 0.0 <==> e == 0.0
  {
    if d * e == 0.0 {
      CancelEq(e, 0.0, d);
    }
  }

  lemma ScaledScore(a: real, q: real, b: real, m: real, zz: real)
    requires m > 0.0 && q * m == zz
    ensures a - q * b == 0.0 <==> m * a == zz * b
  {
    assert m * (a - q * b) == m * a - zz * b by {
      assert m * (q * b) == zz * b;
    }
    ZeroFactor(m, a - q * b);
  }
}
