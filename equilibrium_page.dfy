/** The equilibrium page: demand P = −Q + I_d and supply P = Q + I_s, with both
    intercepts on sliders over [0, 10] (5 by default), and the equilibrium found
    analytically. */
module EquilibriumPage {
  import opened Sampling
  import opened LinearMarket

  const SlopeDemand: real := -1.0
  const SlopeSupply: real := 1.0
  const DefaultIntercept: real := 5.0

  /** P_demand = −Q + I_d: price I_d at Q = 0, falling to 0 at Q = I_d. */
  function Demand(intercept: real): (d: Line)
    ensures PriceAt(d, 0.0) == intercept && PriceAt(d, intercept) == 0.0
    ensures forall q1, q2 :: q1 < q2 ==> PriceAt(d, q2) < PriceAt(d, q1)
  {
    Line(SlopeDemand, intercept)
  }

  /** P_supply = Q + I_s: price I_s at Q = 0, rising one for one with Q. */
  function Supply(intercept: real): (s: Line)
    ensures PriceAt(s, 0.0) == intercept
    ensures forall q1, q2 :: q1 < q2 ==> PriceAt(s, q1) < PriceAt(s, q2)
  {
    Line(SlopeSupply, intercept)
  }

  /** The plotted quantity grid np.linspace(0, 10, 100). */
  function PlotQs(): (qs: seq<real>)
    ensures |qs| == 100 && qs[0] == 0.0 && qs[99] == 10.0
  {
    GridEnds(0.0, 10.0, 100);
    Grid(0.0, 10.0, 100)
  }

  /** P_demand and P_supply over the plotted grid. */
  function Curves(demandIntercept: real, supplyIntercept: real): (c: (seq<real>, seq<real>))
    ensures |c.0| == |c.1| == |PlotQs()|
  {
    (Prices(Demand(demandIntercept), PlotQs()), Prices(Supply(supplyIntercept), PlotQs()))
  }

  /** (intersection_Q, intersection_P). Defined for every pair of intercepts,
      because s_d − s_s = −2 is never 0; in closed form Q = (I_d − I_s)/2 and
      P = (I_d + I_s)/2. */
  function Equilibrium(demandIntercept: real, supplyIntercept: real): (pt: (real, real))
    ensures pt.0 == (demandIntercept - supplyIntercept) / 2.0
    ensures pt.1 == (demandIntercept + supplyIntercept) / 2.0
    ensures PriceAt(Demand(demandIntercept), pt.0) == pt.1 == PriceAt(Supply(supplyIntercept), pt.0)
  {
    Intersection(Demand(demandIntercept), Supply(supplyIntercept))
  }

  /** The default intercepts 5 and 5 meet at (0, 5). */
  lemma DefaultEquilibrium()
    ensures Demand(DefaultIntercept) == BaseDemand
    ensures Equilibrium(DefaultIntercept, DefaultIntercept) == (0.0, 5.0)
  {
  }

  /** Comparative statics: raising demand raises both Q and P; raising supply
      lowers Q and raises P. */
  lemma EquilibriumShifts(dem: real, sup: real, delta: real)
    requires 0.0 < delta
    ensures Equilibrium(dem + delta, sup).0 > Equilibrium(dem, sup).0
    ensures Equilibrium(dem + delta, sup).1 > Equilibrium(dem, sup).1
    ensures Equilibrium(dem, sup + delta).0 < Equilibrium(dem, sup).0
    ensures Equilibrium(dem, sup + delta).1 > Equilibrium(dem, sup).1
  {
  }

  /** Nothing clamps the result: with intercepts in [0, 10], Q ranges over
      [−5, 5] and is negative exactly when I_s > I_d, while P stays in [0, 10]. */
  lemma EquilibriumRange(dem: real, sup: real)
    requires 0.0 <= dem <= 10.0 && 0.0 <= sup <= 10.0
    ensures -5.0 <= Equilibrium(dem, sup).0 <= 5.0
    ensures Equilibrium(dem, sup).0 < 0.0 <==> sup > dem
    ensures 0.0 <= Equilibrium(dem, sup).1 <= 10.0
  {
  }

  /** The plotted curves cross at the equilibrium: at every sample the demand
      price is above the supply price exactly left of intersection_Q, equal at
      it, and below it to the right. */
  lemma CurvesCrossAtEquilibrium(dem: real, sup: real, i: nat)
    requires i < |PlotQs()|
    ensures var c, q := Curves(dem, sup), PlotQs()[i];
      (c.0[i] > c.1[i] <==> q < Equilibrium(dem, sup).0) &&
      (c.0[i] == c.1[i] <==> q == Equilibrium(dem, sup).0)
  {
  }
}
