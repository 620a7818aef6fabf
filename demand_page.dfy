/** The demand page: the demand curve P = −Q + 5, a copy shifted vertically by
    the ΔP slider, and a dot at the Q slider's value on the shifted copy. */
module DemandPage {
  import opened Sampling
  import opened LinearMarket

  /** One rerun for the sliders x_pos ∈ [0, 5] and vertical_shift ∈ [−5, 5],
      both plotted over np.linspace(0, 10, 100). */
  function Render(xPos: real, verticalShift: real): (v: ShiftView)
    ensures v.shifted == Line(-1.0, 5.0 + verticalShift)
    ensures v.yDot == -xPos + (5.0 + verticalShift)
  {
    ShiftPage(BaseDemand, Grid(0.0, 10.0, 100), xPos, verticalShift)
  }

  /** The first visit (x_pos = 2.5, no shift) shows the dot at (2.5, 2.5) on the
      unshifted curve. */
  lemma DefaultView()
    ensures Render(2.5, 0.0).shifted == BaseDemand
    ensures Render(2.5, 0.0).pShifted == Render(2.5, 0.0).pOriginal
    ensures (Render(2.5, 0.0).xDot, Render(2.5, 0.0).yDot) == (2.5, 2.5)
  {
    ShiftPageZero(BaseDemand, Grid(0.0, 10.0, 100), 2.5);
  }

  /** Demand slopes down: with the shift fixed, moving the dot right lowers its price. */
  lemma DotFallsAlongDemand(x1: real, x2: real, verticalShift: real)
    requires x1 < x2
    ensures Render(x2, verticalShift).yDot < Render(x1, verticalShift).yDot
  {
  }
}
