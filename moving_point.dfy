/** The moving point of the opportunity-cost pages: the session keeps x_move
    between reruns, clamps it to the current x-intercept, and draws a tangent
    segment of fixed half-span through the point it marks on the frontier. */
module MovingPoint {
  import opened RealSqrt
  import opened Sampling
  import opened Frontier

  /** `if x_move > x_max: x_move = x_max`, as a value: the smaller of v and hi. */
  function ClampAbove(v: real, hi: real): (r: real)
    ensures r <= hi && r <= v
    ensures r == v || r == hi
  {
    if v > hi then hi else v
  }

  /** A value already at or below the bound is left alone, and clamping twice
      is clamping once. */
  lemma ClampAboveStable(v: real, hi: real)
    ensures v <= hi ==> ClampAbove(v, hi) == v
    ensures ClampAbove(ClampAbove(v, hi), hi) == ClampAbove(v, hi)
  {
  }

  /** The first x_move of a session: half of the x-intercept, 0.5·(e_x·√L). */
  function InitialMove(sqrt: real -> real, p: Params): (x: real)
    requires IsSqrt(sqrt) && 0.0 <= p.labour
    ensures x + x == XMax(sqrt, p)
  {
    0.5 * (p.ex * sqrt(p.labour))
  }

  /** The first x_move lies on the visible part of the frontier, [0, x_max]. */
  lemma InitialMoveInRange(sqrt: real -> real, p: Params)
    requires IsSqrt(sqrt) && 0.0 <= p.labour && 0.0 <= p.ex
    ensures 0.0 <= InitialMove(sqrt, p) <= XMax(sqrt, p)
  {
    MulNonneg(p.ex, sqrt(p.labour));
  }

  /** The session keys a frontier page reads and writes: the sliders L, e_x and
      e_y, and the moving point x_move. */
  class MoveSession {
    var labour: real
    var ex: real
    var ey: real
    var xMove: real

    /** The frontier the current slider values describe. */
    function Sliders(): Params
      reads this
    {
      Params(labour, ex, ey)
    }

    /** The sliders hold values from their ranges and x_move is not left of the y-axis. */
    ghost predicate Valid()
      reads this
    {
      InSliderRange(Sliders()) && 0.0 <= xMove
    }

    /** First visit: L = 20, e_x = e_y = 10, and x_move halfway to the x-intercept. */
    constructor (sqrt: real -> real)
      requires IsSqrt(sqrt)
      ensures labour == 20.0 && ex == 10.0 && ey == 10.0
      ensures xMove == InitialMove(sqrt, Sliders())
      ensures Valid() && xMove <= XMax(sqrt, Sliders())
    {
      labour, ex, ey := 20.0, 10.0, 10.0;
      xMove := 0.5 * (10.0 * sqrt(20.0));
      new;
      InitialMoveInRange(sqrt, Sliders());
    }

    /** The L, e_x and e_y sliders store new values; x_move keeps its old one,
        which may now lie beyond the new x-intercept. */
    method SetSliders(newLabour: real, newEx: real, newEy: real)
      requires Valid() && InSliderRange(Params(newLabour, newEx, newEy))
      modifies this
      ensures Sliders() == Params(newLabour, newEx, newEy) && xMove == old(xMove)
      ensures Valid()
    {
      labour, ex, ey := newLabour, newEx, newEy;
    }

    /** The x_move slider stores a value from its range [0, x_max]. */
    method SetMove(sqrt: real -> real, x: real)
      requires IsSqrt(sqrt) && Valid() && 0.0 <= x <= XMax(sqrt, Sliders())
      modifies this`xMove
      ensures xMove == x && Valid()
    {
      xMove := x;
    }

    /** The rerun's clamp: x_move is cut back to x_max when a slider change has
        moved the intercept left of it, and kept otherwise. */
    method ClampMove(sqrt: real -> real)
      requires IsSqrt(sqrt) && Valid()
      modifies this`xMove
      ensures xMove == ClampAbove(old(xMove), XMax(sqrt, Sliders()))
      ensures Valid() && xMove <= XMax(sqrt, Sliders())
    {
      var xMax := ex * sqrt(labour);
      InterceptsFitAxes(sqrt, Sliders());
      if xMove > xMax {
        xMove := xMax;
      }
    }
  }

  // ----- the centred tangent segment -----

  /** Δ = 0.20·GLOBAL_x_max, the fixed half-span of the tangent segment. */
  function HalfSpan(sqrt: real -> real): (d: real)
    requires IsSqrt(sqrt)
    ensures 0.0 < d && d + d + d + d + d == GlobalXMax(sqrt)
  {
    SqrtPositive(sqrt, MaxLabour);
    0.20 * GlobalXMax(sqrt)
  }

  /** The tangent is drawn through 200 samples. */
  const TangentPoints: nat := 200

  /** x_tan = np.linspace(x_move − Δ, x_move + Δ, 200). */
  function TangentXs(sqrt: real -> real, x0: real): (xs: seq<real>)
    requires IsSqrt(sqrt)
    ensures |xs| == TangentPoints
  {
    Grid(x0 - HalfSpan(sqrt), x0 + HalfSpan(sqrt), TangentPoints)
  }

  /** y_tan = slope·(x_tan − x_move) + y_move. */
  function TangentYs(m: real, x0: real, y0: real, xs: seq<real>): (ys: seq<real>)
    ensures |ys| == |xs|
  {
    seq(|xs|, i requires 0 <= i < |xs| => m * (xs[i] - x0) + y0)
  }

  /** Any two tangent samples rise by m per unit of run: the segment is a
      straight line of slope m. */
  lemma TangentCollinear(m: real, x0: real, y0: real, xs: seq<real>, i: nat, j: nat)
    requires i < |xs| && j < |xs|
    ensures TangentYs(m, x0, y0, xs)[j] - TangentYs(m, x0, y0, xs)[i] == m * (xs[j] - xs[i])
  {
    var ys := TangentYs(m, x0, y0, xs);
    assert ys[j] - ys[i] == m * (xs[j] - x0) - m * (xs[i] - x0);
  }

  /** The segment spans x_move ± Δ and is centred on the moving point: samples
      the same distance from either end average to (x_move, y_move). */
  lemma TangentCentred(sqrt: real -> real, m: real, x0: real, y0: real, i: nat)
    requires IsSqrt(sqrt) && i < TangentPoints
    ensures TangentXs(sqrt, x0)[0] == x0 - HalfSpan(sqrt)
    ensures TangentXs(sqrt, x0)[TangentPoints - 1] == x0 + HalfSpan(sqrt)
    ensures TangentXs(sqrt, x0)[i] + TangentXs(sqrt, x0)[TangentPoints - 1 - i] == x0 + x0
    ensures var xs := TangentXs(sqrt, x0);
            TangentYs(m, x0, y0, xs)[i] + TangentYs(m, x0, y0, xs)[TangentPoints - 1 - i] == y0 + y0
  {
    var d := HalfSpan(sqrt);
    var xs := TangentXs(sqrt, x0);
    var k := TangentPoints - 1 - i;
    GridEnds(x0 - d, x0 + d, TangentPoints);
    GridSymmetric(x0 - d, x0 + d, TangentPoints, i);
    var ys := TangentYs(m, x0, y0, xs);
    assert ys[i] + ys[k] == m * ((xs[i] - x0) + (xs[k] - x0)) + (y0 + y0);
  }

  /** Drawn at a point of the frontier where the radicand is positive, the
      tangent segment never dips below the frontier: every sample whose x is in
      the frontier's domain lies on or above compute_ppf_y there. */
  lemma TangentAboveFrontier(sqrt: real -> real, p: Params, x0: real, i: nat)
    requires IsSqrt(sqrt) && 0.0 <= p.labour && 0.0 < p.ex && 0.0 <= p.ey
    requires 0.0 < Radicand(p, x0) && i < TangentPoints
    requires 0.0 <= Radicand(p, TangentXs(sqrt, x0)[i])
    ensures var xs := TangentXs(sqrt, x0);
            PpfY(sqrt, p, xs[i]) <= TangentYs(TangentSlope(sqrt, p, x0), x0, PpfY(sqrt, p, x0), xs)[i]
  {
    var xs := TangentXs(sqrt, x0);
    TangentSupportsFrontier(sqrt, p, x0, xs[i]);
  }

  /** At x_move = x_max (the slider's maximum, and where the clamp lands) the
      slope is 0 and y_move is 0, so the page draws the flat segment y = 0.
      That segment is not a supporting tangent: wherever the frontier is
      positive under it, the segment lies strictly below the frontier. */
  lemma TangentAtInterceptIsFlat(sqrt: real -> real, p: Params, i: nat)
    requires IsSqrt(sqrt) && 0.0 <= p.labour && 0.0 < p.ex && 0.0 <= p.ey && i < TangentPoints
    ensures var x0 := XMax(sqrt, p);
            TangentYs(TangentSlope(sqrt, p, x0), x0, PpfY(sqrt, p, x0), TangentXs(sqrt, x0))[i] == 0.0
    ensures var x0 := XMax(sqrt, p); var xs := TangentXs(sqrt, x0);
            0.0 < p.ey && 0.0 < Radicand(p, xs[i]) ==>
              TangentYs(TangentSlope(sqrt, p, x0), x0, PpfY(sqrt, p, x0), xs)[i] < PpfY(sqrt, p, xs[i])
  {
    var x0 := XMax(sqrt, p);
    var xs := TangentXs(sqrt, x0);
    PpfYAtIntercepts(sqrt, p);
    assert Radicand(p, x0) == 0.0;
    assert TangentSlope(sqrt, p, x0) == 0.0;
    if 0.0 < p.ey && 0.0 < Radicand(p, xs[i]) {
      SqrtPositive(sqrt, Radicand(p, xs[i]));
      MulLess(p.ey, 0.0, sqrt(Radicand(p, xs[i])));
      assert PpfY(sqrt, p, xs[i]) == p.ey * sqrt(Radicand(p, xs[i]));
    }
  }
}
