/** Straight-line demand and supply curves P = slope·Q + intercept, the
    vertical shifts the market pages apply to them, and the analytic
    intersection of two of them. */
module LinearMarket {
  /** The curve P = slope·Q + intercept. */
  datatype Line = Line(slope: real, intercept: real)

  /** P = −Q + 5, the demand curve every demand page starts from. */
  const BaseDemand: Line := Line(-1.0, 5.0)

  /** The price the curve assigns to quantity q: the intercept at q = 0; at a
      positive quantity, below the intercept on a falling (demand) curve and
      above it on a rising (supply) curve. */
  function PriceAt(l: Line, q: real): (price: real)
    ensures q == 0.0 ==> price == l.intercept
    ensures 0.0 < q && l.slope < 0.0 ==> price < l.intercept
    ensures 0.0 < q && 0.0 < l.slope ==> l.intercept < price
  {
    l.slope * q + l.intercept
  }

  /** The curve shifted vertically: the intercept becomes intercept + shift,
      measured from the given curve, and the slope is kept. */
  function Shift(l: Line, shift: real): (s: Line)
    ensures s.slope == l.slope
  {
    Line(l.slope, l.intercept + shift)
  }

  /** At every quantity the shifted curve is exactly `shift` above the original. */
  lemma ShiftMovesEveryPrice(l: Line, shift: real, q: real)
    ensures PriceAt(Shift(l, shift), q) - PriceAt(l, q) == shift
  {
  }

  /** A shift of 0 is the original curve, and shifting back undoes a shift. */
  lemma ShiftRoundTrip(l: Line, shift: real)
    ensures Shift(l, 0.0) == l
    ensures Shift(Shift(l, shift), -shift) == l
  {
  }

  /** The plotted prices of a curve over a quantity grid. */
  function Prices(l: Line, qs: seq<real>): (ps: seq<real>)
    ensures |ps| == |qs|
  {
    seq(|qs|, i requires 0 <= i < |qs| => PriceAt(l, qs[i]))
  }

  /** Sample by sample, the shifted curve's prices differ from the original's by the shift. */
  lemma ShiftedPricesDiffer(l: Line, shift: real, qs: seq<real>, i: nat)
    requires i < |qs|
    ensures Prices(Shift(l, shift), qs)[i] - Prices(l, qs)[i] == shift
  {
    ShiftMovesEveryPrice(l, shift, qs[i]);
  }

  /** The analytic intersection as written: Q = (I_s − I_d)/(s_d − s_s) and
      P = s_d·Q + I_d. The result lies on both curves. */
  function Intersection(d: Line, s: Line): (pt: (real, real))
    requires d.slope != s.slope
    ensures PriceAt(d, pt.0) == pt.1 && PriceAt(s, pt.0) == pt.1
  {
    var q := (s.intercept - d.intercept) / (d.slope - s.slope);
    assert (d.slope - s.slope) * q == s.intercept - d.intercept;
    (q, d.slope * q + d.intercept)
  }

  /** Two curves of different slope meet in exactly one point. */
  lemma IntersectionUnique(d: Line, s: Line, q: real, pr: real)
    requires d.slope != s.slope
    requires PriceAt(d, q) == pr && PriceAt(s, q) == pr
    ensures (q, pr) == Intersection(d, s)
  {
    var pt := Intersection(d, s);
    var k := d.slope - s.slope;
    assert k * q == s.intercept - d.intercept;
    assert k * pt.0 == s.intercept - d.intercept;
    ProductZero(k, q - pt.0);
  }

  /** A product vanishes only when a factor does. */
  lemma ProductZero(a: real, b: real)
    requires a != 0.0 && a * b == 0.0
    ensures b == 0.0
  {
    assert b == (a * b) / a;
  }

  /** What a "movable point on a shifted curve" page shows: the base curve and
      the shifted curve sampled over the grid, and the dot at x_pos on the
      shifted curve. */
  datatype ShiftView = ShiftView(
    qs: seq<real>, pOriginal: seq<real>, pShifted: seq<real>,
    shifted: Line, xDot: real, yDot: real)

  /** intercept_shifted = base + shift, measured from the base curve and not
      accumulated across reruns; y_dot = price of the shifted curve at x_pos. */
  function ShiftPage(base: Line, qs: seq<real>, xPos: real, shift: real): (v: ShiftView)
    ensures v.shifted == Shift(base, shift) && v.xDot == xPos
    ensures v.yDot == PriceAt(base, xPos) + shift
    ensures v.qs == qs && |v.pOriginal| == |v.pShifted| == |qs|
  {
    var shifted := Shift(base, shift);
    ShiftView(qs, Prices(base, qs), Prices(shifted, qs), shifted, xPos, PriceAt(shifted, xPos))
  }

  /** The dot lies on the page's shifted curve, whose slope is the base slope,
      and every plotted shifted price is `shift` above the original. */
  lemma ShiftPageSpec(base: Line, qs: seq<real>, xPos: real, shift: real)
    ensures ShiftPage(base, qs, xPos, shift).shifted.slope == base.slope
    ensures ShiftPage(base, qs, xPos, shift).yDot == PriceAt(ShiftPage(base, qs, xPos, shift).shifted, xPos)
    ensures forall i :: 0 <= i < |qs| ==>
      ShiftPage(base, qs, xPos, shift).pShifted[i] - ShiftPage(base, qs, xPos, shift).pOriginal[i] == shift
  {
    forall i | 0 <= i < |qs|
      ensures ShiftPage(base, qs, xPos, shift).pShifted[i] - ShiftPage(base, qs, xPos, shift).pOriginal[i] == shift
    {
      ShiftedPricesDiffer(base, shift, qs, i);
    }
  }

  /** Moving the dot changes only the dot: both curves are the same for every x_pos. */
  lemma ShiftPageCurvesIgnoreDot(base: Line, qs: seq<real>, x1: real, x2: real, shift: real)
    ensures ShiftPage(base, qs, x1, shift).pOriginal == ShiftPage(base, qs, x2, shift).pOriginal
    ensures ShiftPage(base, qs, x1, shift).pShifted == ShiftPage(base, qs, x2, shift).pShifted
    ensures ShiftPage(base, qs, x1, shift).shifted == ShiftPage(base, qs, x2, shift).shifted
  {
  }

  /** With shift 0 the shifted curve is the original one, sample for sample. */
  lemma ShiftPageZero(base: Line, qs: seq<real>, xPos: real)
    ensures ShiftPage(base, qs, xPos, 0.0).shifted == base
    ensures ShiftPage(base, qs, xPos, 0.0).pShifted == ShiftPage(base, qs, xPos, 0.0).pOriginal
  {
  }
}
