/** The production-possibility page: each rerun computes the sampled frontier
    and means to draw it on axes fixed at [0, 1.02·GLOBAL_x_max] ×
    [0, 1.02·GLOBAL_y_max]. Its figure code places `fill` inside the line style,
    which Plotly refuses, so as written the page stops after computing the
    curve; the model covers the computed data and the axis ranges it targets. */
module PpcPage {
  import opened RealSqrt
  import opened Frontier
  import opened FrontierCurve

  /** The fixed axis ranges: 2% of headroom past the global intercepts. */
  function AxisXMax(sqrt: real -> real): (a: real)
    requires IsSqrt(sqrt)
    ensures GlobalXMax(sqrt) < a && a - GlobalXMax(sqrt) == GlobalXMax(sqrt) / 50.0
  {
    GlobalXMax(sqrt) * 1.02
  }

  function AxisYMax(sqrt: real -> real): (a: real)
    requires IsSqrt(sqrt)
    ensures GlobalYMax(sqrt) < a && a - GlobalYMax(sqrt) == GlobalYMax(sqrt) / 50.0
  {
    GlobalYMax(sqrt) * 1.02
  }

  /** One rerun: generate the curve for the current sliders. With the sliders in
      range the whole curve lies inside the intended fixed axes, so a static plot
      with those ranges would never cut it off. */
  method Render(sqrt: real -> real, p: Params) returns (xCurve: seq<real>, yCurve: seq<real>)
    requires IsSqrt(sqrt) && InSliderRange(p)
    ensures xCurve == CurveXs(sqrt, p, DefaultPoints) && yCurve == CurveYs(sqrt, p, DefaultPoints)
    ensures forall k :: 0 <= k < |xCurve| ==> 0.0 <= xCurve[k] <= AxisXMax(sqrt)
    ensures forall k :: 0 <= k < |yCurve| ==> 0.0 <= yCurve[k] <= AxisYMax(sqrt)
  {
    var xs, ys, xMax, yMax := GenerateCurve(sqrt, p, DefaultPoints);
    xCurve, yCurve := xs[..], ys[..];
    forall k | 0 <= k < |xCurve|
      ensures 0.0 <= xCurve[k] <= AxisXMax(sqrt) && 0.0 <= yCurve[k] <= AxisYMax(sqrt)
    {
      CurveFitsAxes(sqrt, p, DefaultPoints, k);
    }
  }
}
