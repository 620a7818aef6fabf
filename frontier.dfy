/** The production-possibility frontier shared by every PPF page:
    y = e_y·√(L − (x/e_x)²), with labour L and efficiencies e_x (frogs, the x good)
    and e_y (oranges, the y good). Its axis intercepts are x_max = e_x·√L and
    y_max = e_y·√L. A negative radicand counts as 0, so the frontier is flat
    zero beyond x_max instead of undefined. */
module Frontier {
  import opened RealSqrt

  /** The slider values a frontier page reads: labour L, e_x and e_y. */
  datatype Params = Params(labour: real, ex: real, ey: real)

  /** Slider maxima MAX_L, MAX_e_x and MAX_e_y. */
  const MaxLabour: real := 40.0
  const MaxEx: real := 20.0
  const MaxEy: real := 20.0

  /** The slider ranges: L in [1, 40], e_x and e_y in [1, 20]. Every value in
      range is positive, so no page divides by zero, and the session defaults
      L = 20, e_x = e_y = 10 are in range. */
  predicate InSliderRange(p: Params): (ok: bool)
    ensures ok ==> 0.0 < p.labour && 0.0 < p.ex && 0.0 < p.ey
    ensures p == Params(20.0, 10.0, 10.0) ==> ok
  {
    1.0 <= p.labour <= MaxLabour && 1.0 <= p.ex <= MaxEx && 1.0 <= p.ey <= MaxEy
  }

  function Max(a: real, b: real): real {
    if a < b then b else a
  }

  function Abs(a: real): real {
    if a < 0.0 then -a else a
  }

  /** GLOBAL_x_max and GLOBAL_y_max: the intercepts at the slider maxima, which
      fix the axes. Each is positive and solves its intercept equation
      (g / MAX_e)² = MAX_L. */
  function GlobalXMax(sqrt: real -> real): (g: real)
    requires IsSqrt(sqrt)
    ensures 0.0 < g && (g / MaxEx) * (g / MaxEx) == MaxLabour
  {
    var s := sqrt(MaxLabour);
    SqrtPositive(sqrt, MaxLabour);
    assert (MaxEx * s) / MaxEx == s;
    MaxEx * s
  }

  function GlobalYMax(sqrt: real -> real): (g: real)
    requires IsSqrt(sqrt)
    ensures 0.0 < g && (g / MaxEy) * (g / MaxEy) == MaxLabour
  {
    var s := sqrt(MaxLabour);
    SqrtPositive(sqrt, MaxLabour);
    assert (MaxEy * s) / MaxEy == s;
    MaxEy * s
  }

  /** x_max = e_x·√L, where the frontier meets the x-axis. */
  function XMax(sqrt: real -> real, p: Params): (x: real)
    requires IsSqrt(sqrt) && 0.0 <= p.labour
    ensures 0.0 <= p.ex ==> 0.0 <= x
    ensures 0.0 < p.ex ==> (x / p.ex) * (x / p.ex) == p.labour
  {
    var s := sqrt(p.labour);
    assert 0.0 <= s && s * s == p.labour;
    p.ex * s
  }

  /** y_max = e_y·√L, where the frontier meets the y-axis. */
  function YMax(sqrt: real -> real, p: Params): (y: real)
    requires IsSqrt(sqrt) && 0.0 <= p.labour
    ensures 0.0 <= p.ey ==> 0.0 <= y
    ensures 0.0 < p.ey ==> (y / p.ey) * (y / p.ey) == p.labour
  {
    var s := sqrt(p.labour);
    assert 0.0 <= s && s * s == p.labour;
    p.ey * s
  }

  /** The radicand `inside` = L − (x/e_x)², before it is clamped at 0. */
  function Radicand(p: Params, x: real): (r: real)
    requires 0.0 < p.ex
    ensures r <= p.labour && (x == 0.0 ==> r == p.labour)
  {
    var a := x / p.ex;
    assert 0.0 <= a * a;
    p.labour - a * a
  }

  /** compute_ppf_y: the frontier's height at x, for every real x. */
  function PpfY(sqrt: real -> real, p: Params, x: real): (y: real)
    requires IsSqrt(sqrt) && 0.0 < p.ex
    ensures 0.0 <= p.ey ==> 0.0 <= y
    ensures Radicand(p, x) <= 0.0 ==> y == 0.0
  {
    SqrtZero(sqrt);
    p.ey * sqrt(Max(Radicand(p, x), 0.0))
  }

  /** (x, y) lies on the quarter ellipse (x/e_x)² + (y/e_y)² = L in the first quadrant:
      the frontier described without a square root. */
  ghost predicate OnFrontier(p: Params, x: real, y: real)
    requires 0.0 < p.ex && 0.0 < p.ey
  {
    0.0 <= x && 0.0 <= y && (x / p.ex) * (x / p.ex) + (y / p.ey) * (y / p.ey) == p.labour
  }

  /** The denominator e_x²·√inside of compute_tangent_slope, positive when both factors are. */
  function SlopeDenominator(ex: real, root: real): (d: real)
    requires 0.0 < ex && 0.0 < root
    ensures 0.0 < d
  {
    var er := ex * root;
    assert 0.0 < er;
    ex * er
  }

  /** compute_tangent_slope: dy/dx = −e_y·x / (e_x²·√inside) where the radicand is
      positive, and 0 (the flat-tangent policy) where it is not. */
  function TangentSlope(sqrt: real -> real, p: Params, x: real): (m: real)
    requires IsSqrt(sqrt) && 0.0 < p.ex
    ensures Radicand(p, x) <= 0.0 ==> m == 0.0
    ensures 0.0 <= p.ey && 0.0 <= x ==> m <= 0.0
    ensures 0.0 < p.ey && 0.0 < x && 0.0 < Radicand(p, x) ==> m < 0.0
  {
    var inside := Radicand(p, x);
    if inside <= 0.0 then 0.0
    else
      SqrtPositive(sqrt, inside);
      -(p.ey * x) / SlopeDenominator(p.ex, sqrt(inside))
  }

  /** The opportunity cost shown on the chart: |slope| at the moving point. */
  function OpportunityCost(sqrt: real -> real, p: Params, x: real): (c: real)
    requires IsSqrt(sqrt) && 0.0 < p.ex
    ensures 0.0 <= c
    ensures 0.0 <= p.ey && 0.0 <= x ==> c == -TangentSlope(sqrt, p, x)
  {
    Abs(TangentSlope(sqrt, p, x))
  }

  // ----- facts about the frontier -----

  /** The product of two non-negative reals is non-negative. */
  lemma MulNonneg(a: real, b: real)
    requires 0.0 <= a && 0.0 <= b
    ensures 0.0 <= a * b
  {
  }

  /** Squaring preserves order on the non-negative reals. */
  lemma SquareLe(a: real, b: real)
    requires 0.0 <= a <= b
    ensures a * a <= b * b
  {
    if a < b {
      SquareLess(a, b);
    }
  }

  /** For x ≥ 0 the radicand is non-negative exactly up to x_max, and positive exactly below it. */
  lemma RadicandSign(sqrt: real -> real, p: Params, x: real)
    requires IsSqrt(sqrt) && 0.0 <= p.labour && 0.0 < p.ex && 0.0 <= x
    ensures 0.0 <= Radicand(p, x) <==> x <= XMax(sqrt, p)
    ensures 0.0 < Radicand(p, x) <==> x < XMax(sqrt, p)
  {
    var s, a := sqrt(p.labour), x / p.ex;
    assert s * s == p.labour;
    assert 0.0 <= a;
    assert a <= s <==> x <= p.ex * s;
    assert a < s <==> x < p.ex * s;
    if a < s {
      SquareLess(a, s);
    } else if s < a {
      SquareLess(s, a);
    }
  }

  /** compute_ppf_y(0) = y_max and compute_ppf_y(x_max) = 0. */
  lemma PpfYAtIntercepts(sqrt: real -> real, p: Params)
    requires IsSqrt(sqrt) && 0.0 <= p.labour && 0.0 < p.ex
    ensures PpfY(sqrt, p, 0.0) == YMax(sqrt, p)
    ensures PpfY(sqrt, p, XMax(sqrt, p)) == 0.0
  {
    SqrtZero(sqrt);
    assert Radicand(p, 0.0) == p.labour;
    var s := sqrt(p.labour);
    assert 0.0 <= s && s * s == p.labour;
    assert XMax(sqrt, p) / p.ex == s;
    assert Radicand(p, XMax(sqrt, p)) == 0.0;
  }

  /** compute_ppf_y depends on x only through x²: the frontier formula is even in x. */
  lemma PpfYEven(sqrt: real -> real, p: Params, x: real)
    requires IsSqrt(sqrt) && 0.0 < p.ex
    ensures PpfY(sqrt, p, -x) == PpfY(sqrt, p, x)
  {
    assert -x / p.ex == -(x / p.ex);
    assert Radicand(p, -x) == Radicand(p, x);
  }

  /** Beyond the x-axis intercept ((x/e_x)² ≥ L) the frontier is 0. */
  lemma PpfYBeyondIntercept(sqrt: real -> real, p: Params, x: real)
    requires IsSqrt(sqrt) && 0.0 < p.ex && p.labour <= (x / p.ex) * (x / p.ex)
    ensures PpfY(sqrt, p, x) == 0.0
  {
    assert Radicand(p, x) <= 0.0;
  }

  /** Every point (x, compute_ppf_y(x)) with 0 ≤ x ≤ x_max lies on the frontier ellipse. */
  lemma PpfYOnFrontier(sqrt: real -> real, p: Params, x: real)
    requires IsSqrt(sqrt) && 0.0 <= p.labour && 0.0 < p.ex && 0.0 < p.ey
    requires 0.0 <= x <= XMax(sqrt, p)
    ensures OnFrontier(p, x, PpfY(sqrt, p, x))
  {
    RadicandSign(sqrt, p, x);
    var r := Radicand(p, x);
    var s := sqrt(r);
    assert s * s == r;
    var y := PpfY(sqrt, p, x);
    assert y == p.ey * s;
    DivCancel(p.ey, s);
  }

  /** Dividing a product by one of its non-zero factors leaves the other. */
  lemma DivCancel(e: real, s: real)
    requires e != 0.0
    ensures (e * s) / e == s
  {
  }

  /** Conversely, a first-quadrant point of the ellipse is the frontier's value at its x. */
  lemma OnFrontierIsPpfY(sqrt: real -> real, p: Params, x: real, y: real)
    requires IsSqrt(sqrt) && 0.0 < p.ex && 0.0 < p.ey
    requires OnFrontier(p, x, y)
    ensures y == PpfY(sqrt, p, x)
  {
    var b := y / p.ey;
    assert 0.0 <= b;
    assert Radicand(p, x) == b * b;
    SqrtOfSquare(sqrt, b);
    assert y == p.ey * b;
  }

  /** The frontier never rises: for 0 ≤ x1 ≤ x2, compute_ppf_y(x2) ≤ compute_ppf_y(x1). */
  lemma PpfYAntitone(sqrt: real -> real, p: Params, x1: real, x2: real)
    requires IsSqrt(sqrt) && 0.0 < p.ex && 0.0 <= p.ey && 0.0 <= x1 <= x2
    ensures PpfY(sqrt, p, x2) <= PpfY(sqrt, p, x1)
  {
    RadicandAntitone(p, x1, x2);
    var r1, r2 := Max(Radicand(p, x1), 0.0), Max(Radicand(p, x2), 0.0);
    assert 0.0 <= r2 <= r1;
    SqrtMonotone(sqrt, r2, r1);
    MulLe(p.ey, sqrt(r2), sqrt(r1));
    assert PpfY(sqrt, p, x1) == p.ey * sqrt(r1);
    assert PpfY(sqrt, p, x2) == p.ey * sqrt(r2);
  }

  /** The radicand shrinks as x moves right from 0. */
  lemma RadicandAntitone(p: Params, x1: real, x2: real)
    requires 0.0 < p.ex && 0.0 <= x1 <= x2
    ensures Radicand(p, x2) <= Radicand(p, x1)
  {
    var a1, a2 := x1 / p.ex, x2 / p.ex;
    DivLe(x1, x2, p.ex);
    SquareLe(a1, a2);
  }

  lemma DivLe(x1: real, x2: real, e: real)
    requires 0.0 < e && 0.0 <= x1 <= x2
    ensures 0.0 <= x1 / e <= x2 / e
  {
  }

  /** The frontier stays below its y-intercept: compute_ppf_y(x) ≤ y_max for every x. */
  lemma PpfYAtMostYMax(sqrt: real -> real, p: Params, x: real)
    requires IsSqrt(sqrt) && 0.0 <= p.labour && 0.0 < p.ex && 0.0 <= p.ey
    ensures PpfY(sqrt, p, x) <= YMax(sqrt, p)
  {
    PpfYEven(sqrt, p, x);
    PpfYAtIntercepts(sqrt, p);
    if 0.0 <= x {
      PpfYAntitone(sqrt, p, 0.0, x);
    } else {
      PpfYAntitone(sqrt, p, 0.0, -x);
    }
  }

  /** With the sliders in range, both intercepts fit the fixed axes:
      x_max ≤ GLOBAL_x_max and y_max ≤ GLOBAL_y_max. */
  lemma InterceptsFitAxes(sqrt: real -> real, p: Params)
    requires IsSqrt(sqrt) && InSliderRange(p)
    ensures 0.0 < XMax(sqrt, p) <= GlobalXMax(sqrt)
    ensures 0.0 < YMax(sqrt, p) <= GlobalYMax(sqrt)
  {
    SqrtMonotone(sqrt, p.labour, MaxLabour);
    SqrtPositive(sqrt, p.labour);
    var s, g := sqrt(p.labour), sqrt(MaxLabour);
    assert 0.0 < s <= g;
    assert p.ex * s <= MaxEx * g by {
      MulNonneg(MaxEx - p.ex, s);
      MulNonneg(MaxEx, g - s);
    }
    assert p.ey * s <= MaxEy * g by {
      MulNonneg(MaxEy - p.ey, s);
      MulNonneg(MaxEy, g - s);
    }
  }

  /** compute_tangent_slope is 0 where the radicand is not positive and, for x ≠ 0 and
      e_y ≠ 0, only there. (At x = 0 the numerator is 0, so the slope is 0 although
      the radicand is L.) */
  lemma TangentSlopeZero(sqrt: real -> real, p: Params, x: real)
    requires IsSqrt(sqrt) && 0.0 < p.ex
    ensures x != 0.0 && p.ey != 0.0 ==> (TangentSlope(sqrt, p, x) == 0.0 <==> Radicand(p, x) <= 0.0)
    ensures TangentSlope(sqrt, p, 0.0) == 0.0
  {
    if 0.0 < Radicand(p, x) {
      SlopeTimesDenominator(sqrt, p, x);
    }
    if 0.0 < Radicand(p, 0.0) {
      SlopeTimesDenominator(sqrt, p, 0.0);
    }
  }

  /** Where the radicand is positive, the slope times its denominator e_x²·√inside is −e_y·x. */
  lemma SlopeTimesDenominator(sqrt: real -> real, p: Params, x: real)
    requires IsSqrt(sqrt) && 0.0 < p.ex && 0.0 < Radicand(p, x)
    ensures 0.0 < p.ex * p.ex * sqrt(Radicand(p, x))
    ensures TangentSlope(sqrt, p, x) * (p.ex * p.ex * sqrt(Radicand(p, x))) == -(p.ey * x)
  {
    var s := sqrt(Radicand(p, x));
    SqrtPositive(sqrt, Radicand(p, x));
    assert 0.0 < SlopeDenominator(p.ex, s);
  }

  /** The tangent slope is the derivative of the frontier: along the ellipse
      (x/e_x)² + (y/e_y)² = L, the direction (1, m) is orthogonal to the gradient
      (x/e_x², y/e_y²) wherever the radicand is positive. Stated multiplied
      through by e_x²·e_y²: e_y²·x + e_x²·m·y = 0. */
  lemma TangentSlopeIsImplicitDerivative(sqrt: real -> real, p: Params, x: real)
    requires IsSqrt(sqrt) && 0.0 < p.ex && 0.0 < Radicand(p, x)
    ensures p.ey * p.ey * x + p.ex * p.ex * TangentSlope(sqrt, p, x) * PpfY(sqrt, p, x) == 0.0
  {
    SlopeTimesDenominator(sqrt, p, x);
    ImplicitAlgebra(p.ey, x, p.ex, sqrt(Radicand(p, x)), TangentSlope(sqrt, p, x), PpfY(sqrt, p, x));
  }

  lemma ImplicitAlgebra(ey: real, x: real, ex: real, u: real, m: real, y: real)
    requires m * (ex * ex * u) == -(ey * x) && y == ey * u
    ensures ey * ey * x + ex * ex * m * y == 0.0
  {
    assert ex * ex * m * y == ey * (m * (ex * ex * u));
  }

  /** Lagrange's identity in two dimensions. */
  lemma Lagrange(a: real, u: real, b: real, v: real)
    ensures (a * a + u * u) * (b * b + v * v) == (a * b + u * v) * (a * b + u * v) + (a * v - b * u) * (a * v - b * u)
  {
  }

  /** Cauchy–Schwarz for two vectors of squared length L: a·b + u·v ≤ L. */
  lemma DotAtMost(a: real, u: real, b: real, v: real, labour: real)
    requires 0.0 <= labour && a * a + u * u == labour && b * b + v * v == labour
    ensures a * b + u * v <= labour
  {
    Lagrange(a, u, b, v);
    var w := a * b + u * v;
    var d := a * v - b * u;
    var dd := d * d;
    assert 0.0 <= dd;
    assert w * w <= labour * labour;
    if labour < w {
      SquareLess(labour, w);
    }
  }

  /** The frontier is concave and the tangent is a supporting line: where the radicand
      at x is positive, the tangent through (x, compute_ppf_y(x)) lies on or above the
      frontier at every t of its domain [−x_max, x_max]. */
  lemma TangentSupportsFrontier(sqrt: real -> real, p: Params, x: real, t: real)
    requires IsSqrt(sqrt) && 0.0 <= p.labour && 0.0 < p.ex && 0.0 <= p.ey
    requires 0.0 < Radicand(p, x) && 0.0 <= Radicand(p, t)
    ensures PpfY(sqrt, p, t) <= PpfY(sqrt, p, x) + TangentSlope(sqrt, p, x) * (t - x)
  {
    SlopeTimesDenominator(sqrt, p, x);
    var u, v := sqrt(Radicand(p, x)), sqrt(Radicand(p, t));
    assert PpfY(sqrt, p, x) == p.ey * u;
    assert PpfY(sqrt, p, t) == p.ey * v;
    TangentSupportCore(p.ey, p.ex, p.labour, x, t, TangentSlope(sqrt, p, x), u, v);
  }

  /** The supporting-line inequality with the square roots named u and v. */
  lemma TangentSupportCore(ey: real, ex: real, labour: real, x: real, t: real, m: real, u: real, v: real)
    requires 0.0 < ex && 0.0 <= ey && 0.0 <= labour && 0.0 < u && 0.0 <= v
    requires u * u == labour - (x / ex) * (x / ex) && v * v == labour - (t / ex) * (t / ex)
    requires m * (ex * ex * u) == -(ey * x)
    ensures ey * v <= ey * u + m * (t - x)
  {
    var a, b := x / ex, t / ex;
    DotAtMost(a, u, b, v, labour);
    DivMulCancel(x, ex);
    DivMulCancel(t, ex);
    SupportAlgebra(ey, ex, a, b, u, v, m, labour);
  }

  /** Multiplying a quotient back by its non-zero divisor restores the dividend. */
  lemma DivMulCancel(x: real, e: real)
    requires e != 0.0
    ensures (x / e) * e == x
  {
  }

  /** (g·d = e_y·e_x²·w with d, w ≥ 0 forces g ≥ 0), specialised to the supporting line. */
  lemma SupportAlgebra(ey: real, ex: real, a: real, b: real, u: real, v: real, m: real, labour: real)
    requires 0.0 < u && 0.0 < ex && 0.0 <= ey
    requires m * (ex * ex * u) == -(ey * (a * ex))
    requires u * u == labour - a * a
    requires a * b + u * v <= labour
    ensures ey * v <= ey * u + m * (b * ex - a * ex)
  {
    SupportIdentity(ey, ex, a, b, u, v, m, labour);
    var g := ey * u + m * (b * ex - a * ex) - ey * v;
    var w := labour - a * b - u * v;
    assert 0.0 < ex * ex * u;
    assert 0.0 <= ey * (ex * ex) * w;
    assert g * (ex * ex * u) == ey * (ex * ex) * w;
  }

  lemma SupportIdentity(ey: real, ex: real, a: real, b: real, u: real, v: real, m: real, labour: real)
    requires m * (ex * ex * u) == -(ey * (a * ex))
    requires u * u == labour - a * a
    ensures (ey * u + m * (b * ex - a * ex) - ey * v) * (ex * ex * u) == ey * (ex * ex) * (labour - a * b - u * v)
  {
    assert m * (b * ex - a * ex) * (ex * ex * u) == -(ey * (a * ex)) * (b * ex - a * ex);
    assert ey * u * (ex * ex * u) == ey * (ex * ex) * (u * u);
  }

  /** The law of increasing opportunity cost: moving right along the frontier
      (0 ≤ x1 < x2 < x_max) strictly raises |slope|. */
  lemma OpportunityCostIncreasing(sqrt: real -> real, p: Params, x1: real, x2: real)
    requires IsSqrt(sqrt) && 0.0 < p.ex && 0.0 < p.ey
    requires 0.0 <= x1 < x2 && 0.0 < Radicand(p, x2)
    ensures OpportunityCost(sqrt, p, x1) < OpportunityCost(sqrt, p, x2)
  {
    RootsDecrease(sqrt, p, x1, x2);
    CostIsQuotient(sqrt, p, x1);
    CostIsQuotient(sqrt, p, x2);
    var u1, u2 := sqrt(Radicand(p, x1)), sqrt(Radicand(p, x2));
    var d1, d2 := SlopeDenominator(p.ex, u1), SlopeDenominator(p.ex, u2);
    SlopeDenominatorMonotone(p.ex, u2, u1);
    var n1, n2 := p.ey * x1, p.ey * x2;
    MulLess(p.ey, x1, x2);
    MulNonneg(p.ey, x1);
    assert 0.0 <= n1 < n2;
    assert 0.0 < d2 <= d1;
    RatioLess(n1, n2, d1, d2);
  }

  /** Moving right from x1 to x2 inside the frontier's domain shrinks the root √inside. */
  lemma RootsDecrease(sqrt: real -> real, p: Params, x1: real, x2: real)
    requires IsSqrt(sqrt) && 0.0 < p.ex && 0.0 <= x1 < x2 && 0.0 < Radicand(p, x2)
    ensures 0.0 < sqrt(Radicand(p, x2)) < sqrt(Radicand(p, x1))
  {
    DivLess(x1, x2, p.ex);
    SquareLess(x1 / p.ex, x2 / p.ex);
    var r1, r2 := Radicand(p, x1), Radicand(p, x2);
    assert 0.0 < r2 < r1;
    SqrtStrictMonotone(sqrt, r2, r1);
    SqrtPositive(sqrt, r2);
  }

  lemma DivLess(x1: real, x2: real, e: real)
    requires 0.0 < e && 0.0 <= x1 < x2
    ensures 0.0 <= x1 / e < x2 / e
  {
  }

  /** In the first quadrant, where the radicand is positive, the opportunity cost is
      e_y·x over the slope's denominator. */
  lemma CostIsQuotient(sqrt: real -> real, p: Params, x: real)
    requires IsSqrt(sqrt) && 0.0 < p.ex && 0.0 <= p.ey && 0.0 <= x && 0.0 < Radicand(p, x)
    ensures 0.0 < sqrt(Radicand(p, x))
    ensures OpportunityCost(sqrt, p, x) == (p.ey * x) / SlopeDenominator(p.ex, sqrt(Radicand(p, x)))
  {
    SqrtPositive(sqrt, Radicand(p, x));
    NegDiv(p.ey * x, SlopeDenominator(p.ex, sqrt(Radicand(p, x))));
  }

  lemma NegDiv(n: real, d: real)
    requires d != 0.0
    ensures -n / d == -(n / d)
  {
  }

  /** The slope's denominator grows with the root. */
  lemma SlopeDenominatorMonotone(ex: real, u: real, w: real)
    requires 0.0 < ex && 0.0 < u <= w
    ensures SlopeDenominator(ex, u) <= SlopeDenominator(ex, w)
  {
    MulLe(ex, u, w);
    MulLe(ex, ex * u, ex * w);
  }

  lemma MulLe(a: real, b: real, c: real)
    requires 0.0 <= a && b <= c
    ensures a * b <= a * c
  {
    MulNonneg(a, c - b);
  }

  lemma MulLess(a: real, b: real, c: real)
    requires 0.0 < a && b < c
    ensures a * b < a * c
  {
    assert a * c - a * b == a * (c - b);
  }

  /** A factor of a positive product with a positive co-factor is positive. */
  lemma PositiveFactor(a: real, d: real)
    requires 0.0 < d && 0.0 < a * d
    ensures 0.0 < a
  {
    DivCancel(d, a);
    assert a * d == d * a;
  }

  /** A smaller non-negative numerator over a larger positive denominator gives a
      smaller quotient. */
  lemma RatioLess(n1: real, n2: real, d1: real, d2: real)
    requires 0.0 <= n1 < n2 && 0.0 < d2 <= d1
    ensures n1 / d1 < n2 / d2
  {
    var q1, q2 := n1 / d1, n2 / d2;
    DivMulCancel(n1, d1);
    DivMulCancel(n2, d2);
    assert 0.0 <= q1;
    MulLe(q1, d2, d1);
    assert (q2 - q1) * d2 == q2 * d2 - q1 * d2;
    PositiveFactor(q2 - q1, d2);
  }
}
