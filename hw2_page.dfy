/** The homework page: the same frontier, moving point and slope as the
    opportunity-cost page, without the drawn curve (its generate_curve never
    builds the arrays it returns). */
module Hw2Page {
  import opened RealSqrt
  import opened Frontier
  import opened MovingPoint

  /** The first x_move as this page writes it: (e_x·√L)/2, halfway to x_max. */
  function InitialMove(sqrt: real -> real, p: Params): (x: real)
    requires IsSqrt(sqrt) && 0.0 <= p.labour
    ensures x == MovingPoint.InitialMove(sqrt, p)
  {
    (p.ex * sqrt(p.labour)) / 2.0
  }

  /** One rerun: clamp x_move to x_max = e_x·√L, then evaluate y_move and
      slope_at_move at the clamped value. */
  method Rerun(sqrt: real -> real, s: MoveSession) returns (xMove: real, yMove: real, slope: real)
    requires IsSqrt(sqrt) && s.Valid()
    modifies s`xMove
    ensures s.Valid() && s.xMove == ClampAbove(old(s.xMove), XMax(sqrt, s.Sliders()))
    ensures xMove == s.xMove
    ensures yMove == PpfY(sqrt, s.Sliders(), xMove) && slope == TangentSlope(sqrt, s.Sliders(), xMove)
  {
    s.ClampMove(sqrt);
    xMove := s.xMove;
    yMove := PpfY(sqrt, s.Sliders(), xMove);
    slope := TangentSlope(sqrt, s.Sliders(), xMove);
  }

  /** After the clamp the point is on the frontier in the first quadrant and the
      slope is 0 exactly at the two ends x = 0 and x = x_max, negative between. */
  lemma RerunPointSpec(sqrt: real -> real, p: Params, xMove: real)
    requires IsSqrt(sqrt) && InSliderRange(p) && 0.0 <= xMove <= XMax(sqrt, p)
    ensures OnFrontier(p, xMove, PpfY(sqrt, p, xMove))
    ensures TangentSlope(sqrt, p, xMove) == 0.0 <==> xMove == 0.0 || xMove == XMax(sqrt, p)
    ensures TangentSlope(sqrt, p, xMove) <= 0.0
  {
    PpfYOnFrontier(sqrt, p, xMove);
    RadicandSign(sqrt, p, xMove);
    TangentSlopeZero(sqrt, p, xMove);
  }
}
