/** The supply page: the supply curve P = Q + 5, a copy shifted vertically by
    the ΔP slider, and a dot at the Q slider's value on the shifted copy. */
module SupplyPage {
  import opened Sampling
  import opened LinearMarket

  /** base_constant = 5.0. */
  const BaseConstant: real := 5.0

  /** The original supply P = Q + 5. */
  const Original: Line := Line(1.0, BaseConstant)

  /** The original supply prices 5 at Q = 0 and rises one for one with Q. */
  lemma OriginalSupply(q: real)
    ensures PriceAt(Original, q) == q + BaseConstant
    ensures PriceAt(Original, 0.0) == 5.0
  {
  }

  /** One rerun for the sliders x_pos ∈ [0, 5] and vertical_shift ∈ [−5, 5],
      both plotted over np.linspace(0, 10, 100). */
  function Render(xPos: real, verticalShift: real): (v: ShiftView)
    ensures v.shifted == Line(1.0, 5.0 + verticalShift)
    ensures v.yDot == xPos + (5.0 + verticalShift)
  {
    ShiftPage(Original, Grid(0.0, 10.0, 100), xPos, verticalShift)
  }

  /** Supply slopes up: with the shift fixed, the dot's price is strictly
      increasing in x_pos. */
  lemma DotRisesAlongSupply(x1: real, x2: real, verticalShift: real)
    requires x1 < x2
    ensures Render(x1, verticalShift).yDot < Render(x2, verticalShift).yDot
  {
  }

  /** A shift of 0 restores P = Q + 5 however the slider got there, since the
      shift is measured from the base constant. */
  lemma ZeroShiftRestoresOriginal(xPos: real)
    ensures Render(xPos, 0.0).shifted == Original
    ensures Render(xPos, 0.0).pShifted == Render(xPos, 0.0).pOriginal
  {
    ShiftPageZero(Original, Grid(0.0, 10.0, 100), xPos);
  }
}
