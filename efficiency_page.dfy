/** The efficiency pages (three copies of one script that compute the same
    values): the frontier and 30 sample points coloured near / inside /
    outside. */
module EfficiencyPage {
  import opened RealSqrt
  import opened Frontier
  import opened FrontierCurve
  import opened Efficiency

  /** One rerun: the curve, and the sample points (x_rand, y_rand) split by class. */
  method Render(sqrt: real -> real, p: Params, xRand: seq<real>, yRand: seq<real>)
    returns (xCurve: seq<real>, yCurve: seq<real>, s: Scatter)
    requires IsSqrt(sqrt) && InSliderRange(p) && |xRand| == |yRand|
    ensures xCurve == CurveXs(sqrt, p, DefaultPoints) && yCurve == CurveYs(sqrt, p, DefaultPoints)
    ensures s == Split(sqrt, p, xRand, yRand)
  {
    var xs, ys, xMax, yMax := GenerateCurve(sqrt, p, DefaultPoints);
    xCurve, yCurve := xs[..], ys[..];
    s := Split(sqrt, p, xRand, yRand);
  }

  /** A sample point lying exactly on the drawn frontier is coloured near, and a
      point inside is strictly more than the tolerance below the curve. */
  lemma OnCurveIsNear(sqrt: real -> real, p: Params, x: real, y: real)
    requires IsSqrt(sqrt) && InSliderRange(p) && OnFrontier(p, x, y)
    ensures Classify(y, Threshold(sqrt, p, x)).near
    ensures Classify(y, Threshold(sqrt, p, x)).inside ==> y < Threshold(sqrt, p, x) - Tolerance
  {
    OnFrontierIsPpfY(sqrt, p, x, y);
    ThresholdIsPpfY(sqrt, p, x);
    ClassifyCover(y, y);
  }
}
