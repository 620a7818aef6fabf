/** The paired demand-markets page: a dot slides along the demand P = −Q + 5 of
    one market, and the demand curve of a related market shifts vertically in
    response, in the same direction for substitutes and in the opposite one for
    complements. The dot on the related market stays at Q = 2.5. */
module DemandMarketsPage {
  import opened LinearMarket

  /** The sidebar radio "Product Relationship", "Substitutes" by default. */
  datatype Relationship = Substitutes | Complements

  /** The reference point (2.5, 2.5) on the demand, where the left dot starts
      and where the right dot's quantity stays. */
  const Reference: real := 2.5

  /** The four changes shown above the graphs. */
  datatype Deltas = Deltas(qLeft: real, pLeft: real, qRight: real, pRight: real)

  /** y_left: the left dot's price, on the original demand. */
  function LeftPrice(xLeft: real): (y: real)
    ensures y == PriceAt(BaseDemand, xLeft)
  {
    -xLeft + 5.0
  }

  /** delta_p: the price change of the left dot relative to 2.5, inverted for complements. */
  function RightShift(mode: Relationship, xLeft: real): (d: real)
    ensures mode == Substitutes ==> d == Reference - xLeft
    ensures mode == Complements ==> d == xLeft - Reference
  {
    var deltaRaw := LeftPrice(xLeft) - Reference;
    if mode == Substitutes then deltaRaw else -deltaRaw
  }

  /** The ΔQ and ΔP of the left dot from (2.5, 2.5), and of the right dot, whose
      quantity never moves and whose price moves by delta_p. */
  function Changes(mode: Relationship, xLeft: real): (d: Deltas)
    ensures d.qRight == 0.0 && d.pRight == RightShift(mode, xLeft)
  {
    var deltaRaw := LeftPrice(xLeft) - Reference;
    Deltas(xLeft - Reference, deltaRaw, 0.0, RightShift(mode, xLeft))
  }

  /** The right figure for vertical_shift = delta_p over the quantity grid qs
      (np.linspace(0, 10, 100) on the numbered page, (0, 5, 100) on the draft):
      the shifted demand and the dot at Q = 2.5 on it. */
  function RightView(mode: Relationship, xLeft: real, qs: seq<real>): (v: ShiftView)
    ensures v.shifted == Shift(BaseDemand, RightShift(mode, xLeft))
    ensures v.xDot == Reference && v.yDot == Reference + RightShift(mode, xLeft)
  {
    ShiftPage(BaseDemand, qs, Reference, RightShift(mode, xLeft))
  }

  /** The left dot moves along the demand, so its ΔP is −ΔQ; the right dot stays
      at Q = 2.5 and its ΔP is the left ΔP for substitutes and its negation for
      complements. */
  lemma ChangesSpec(mode: Relationship, xLeft: real)
    ensures Changes(mode, xLeft).pLeft == -Changes(mode, xLeft).qLeft
    ensures mode == Substitutes ==> Changes(mode, xLeft).pRight == Changes(mode, xLeft).pLeft
    ensures mode == Complements ==> Changes(mode, xLeft).pRight == -Changes(mode, xLeft).pLeft
  {
  }

  /** The two relationships always move the right curve in opposite directions
      by the same amount, and agree only when the left dot is at 2.5. */
  lemma ModesOpposite(xLeft: real)
    ensures RightShift(Substitutes, xLeft) == -RightShift(Complements, xLeft)
    ensures RightShift(Substitutes, xLeft) == RightShift(Complements, xLeft) <==> xLeft == Reference
  {
  }

  /** Every price plotted on the right is delta_p above the original demand's
      price at the same quantity. */
  lemma RightViewSpec(mode: Relationship, xLeft: real, qs: seq<real>)
    ensures forall i :: 0 <= i < |qs| ==>
      RightView(mode, xLeft, qs).pShifted[i] - RightView(mode, xLeft, qs).pOriginal[i] == RightShift(mode, xLeft)
  {
    ShiftPageSpec(BaseDemand, qs, Reference, RightShift(mode, xLeft));
  }

  /** For substitutes the right dot's price follows the left dot's exactly; for
      complements it mirrors it around 2.5. */
  lemma RightDotTracksLeft(mode: Relationship, xLeft: real, qs: seq<real>)
    ensures mode == Substitutes ==> RightView(mode, xLeft, qs).yDot == LeftPrice(xLeft)
    ensures mode == Complements ==>
      RightView(mode, xLeft, qs).yDot + LeftPrice(xLeft) == Reference + Reference
  {
  }

  /** The first visit (x_left = 2.5) shows no change anywhere, in either mode,
      and the right curve is the original demand. */
  lemma DefaultUnchanged(mode: Relationship, qs: seq<real>)
    ensures Changes(mode, Reference) == Deltas(0.0, 0.0, 0.0, 0.0)
    ensures RightView(mode, Reference, qs).shifted == BaseDemand
  {
  }

  /** Over the slider's range x_left ∈ [0, 5], each ΔP lies in [−2.5, 2.5], so
      the right dot stays within [0, 5] on the price axis; the left dot's price
      falls as x_left rises. */
  lemma ChangesBounded(mode: Relationship, xLeft: real, qs: seq<real>)
    requires 0.0 <= xLeft <= 5.0
    ensures -Reference <= Changes(mode, xLeft).pLeft <= Reference
    ensures -Reference <= Changes(mode, xLeft).pRight <= Reference
    ensures 0.0 <= RightView(mode, xLeft, qs).yDot <= 5.0
  {
  }

  /** Substitutes: pushing the left dot right lowers the right price;
      complements: it raises it. */
  lemma RightShiftMonotone(x1: real, x2: real)
    requires x1 < x2
    ensures RightShift(Substitutes, x2) < RightShift(Substitutes, x1)
    ensures RightShift(Complements, x1) < RightShift(Complements, x2)
  {
  }
}
