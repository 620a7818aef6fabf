/** The opportunity-cost page: a point moves along the frontier, the page draws
    the tangent segment centred on it and prints the opportunity cost |slope|. */
module OpportunityCostsPage {
  import opened RealSqrt
  import opened Sampling
  import opened Frontier
  import opened FrontierCurve
  import opened MovingPoint

  /** What one rerun draws: the sampled curve, the moving point, its slope, the
      centred tangent segment and the printed opportunity cost. */
  datatype View = View(
    xCurve: seq<real>, yCurve: seq<real>, xMax: real,
    xMove: real, yMove: real, slope: real,
    xTan: seq<real>, yTan: seq<real>, cost: real)

  /** The view for sliders p and the (already clamped) x_move. */
  function PageView(sqrt: real -> real, p: Params, xMove: real): (v: View)
    requires IsSqrt(sqrt) && 0.0 <= p.labour && 0.0 < p.ex
    ensures |v.xCurve| == |v.yCurve| == DefaultPoints + 2 && v.xMax == XMax(sqrt, p)
    ensures |v.xTan| == |v.yTan| == TangentPoints
    ensures 0.0 <= v.cost && v.xMove == xMove
  {
    var y := PpfY(sqrt, p, xMove);
    var m := TangentSlope(sqrt, p, xMove);
    var xt := TangentXs(sqrt, xMove);
    View(CurveXs(sqrt, p, DefaultPoints), CurveYs(sqrt, p, DefaultPoints), XMax(sqrt, p),
         xMove, y, m, xt, TangentYs(m, xMove, y, xt), OpportunityCost(sqrt, p, xMove))
  }

  /** One rerun of the script: generate the curve, clamp x_move into the
      session, evaluate the point and its slope, build the tangent segment. */
  method Rerun(sqrt: real -> real, s: MoveSession) returns (v: View)
    requires IsSqrt(sqrt) && s.Valid()
    modifies s`xMove
    ensures s.Valid() && s.xMove == ClampAbove(old(s.xMove), XMax(sqrt, s.Sliders()))
    ensures v == PageView(sqrt, s.Sliders(), s.xMove)
  {
    var p := s.Sliders();
    var xCurve, yCurve, xMax, yMax := GenerateCurve(sqrt, p, DefaultPoints);
    s.ClampMove(sqrt);
    var xMove := s.xMove;
    var yMove := PpfY(sqrt, p, xMove);
    var slope := TangentSlope(sqrt, p, xMove);
    var delta := 0.20 * GlobalXMax(sqrt);
    var xTan := LinspaceArray(xMove - delta, xMove + delta, TangentPoints);
    var yTan := TangentYs(slope, xMove, yMove, xTan[..]);
    v := View(xCurve[..], yCurve[..], xMax, xMove, yMove, slope, xTan[..], yTan, Abs(slope));
  }

  /** What the page shows after a rerun with in-range sliders: the moving point
      sits on the frontier between the axes, the slope there is not positive and
      the printed cost is its absolute value, and the tangent segment spans
      x_move ± Δ. */
  lemma PageViewSpec(sqrt: real -> real, p: Params, xMove: real)
    requires IsSqrt(sqrt) && InSliderRange(p) && 0.0 <= xMove <= XMax(sqrt, p)
    ensures var v := PageView(sqrt, p, xMove);
      OnFrontier(p, v.xMove, v.yMove) && v.slope <= 0.0 && 0.0 <= v.cost && v.cost == -v.slope
    ensures var v := PageView(sqrt, p, xMove);
      |v.xTan| == |v.yTan| == TangentPoints &&
      v.xTan[0] == xMove - HalfSpan(sqrt) && v.xTan[TangentPoints - 1] == xMove + HalfSpan(sqrt)
  {
    PpfYOnFrontier(sqrt, p, xMove);
    TangentCentred(sqrt, TangentSlope(sqrt, p, xMove), xMove, PpfY(sqrt, p, xMove), 0);
  }
}
