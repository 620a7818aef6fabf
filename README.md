# Econ9 interactive pages — a Dafny model

The Econ9 Streamlit app teaches introductory economics through small
interactive pages. This project models the computational core of those
pages in Dafny and proves what they promise.

**Production-possibility frontier (PPF) pages.** Labour `L` and the
efficiencies `e_x` (frogs) and `e_y` (oranges) come from sliders. They fix
the frontier `y = e_y·√max(0, L − (x/e_x)²)` and its intercepts
`x_max = e_x·√L` and `y_max = e_y·√L`.

- `generate_curve` samples the frontier into arrays. It uses
  `np.linspace`, computes the radicands, zeroes the negative ones in place,
  takes the roots, and pins the curve to both axes.
- `compute_ppf_y` evaluates the frontier at one point.
- `compute_tangent_slope` gives the derivative there, or 0 where the
  radicand is not positive.
- The opportunity-cost pages keep a moving point `x_move` in the session.
  Each rerun clamps it to the current `x_max`. The page draws a tangent
  segment of fixed half-span `Δ = 0.2·GLOBAL_x_max` centred on the point
  and prints the opportunity cost `|slope|`.
- The efficiency pages compare sample points with the frontier. Each point
  is near (within a vertical tolerance of 2), inside (below and not near)
  or outside (above). Boolean masks then filter the points into three
  scatter lists.

**Linear market pages.** Demand and supply are lines `P = slope·Q + intercept`.

- Some pages shift a curve vertically by a slider value and put a dot on
  the shifted curve.
- The equilibrium page intersects demand and supply analytically.
- The paired demand-markets page moves the demand of a related market. It
  shifts in the same direction as the first market's price change for
  substitutes, and in the opposite direction for complements.

**Modules.**

| module | what it holds |
|---|---|
| `RealSqrt` | The properties of the square root that are used. Every member that takes a root receives the root function `sqrt` as a parameter and requires `IsSqrt(sqrt)`. |
| `Sampling` | `np.linspace`. |
| `Frontier` | The frontier, its slope and the facts about them. |
| `FrontierCurve` | `generate_curve`, as loops over arrays. |
| `MovingPoint` | The session object, the clamp and the tangent segment. |
| `Efficiency` | Classification, masks and boolean indexing. |
| `LinearMarket` | Lines, shifts and intersections. |
| Page modules | One module per page: `PpcPage`, `OpportunityCostsPage`, `Hw2Page`, `EfficiencyPage`, `EquilibriumPage`, `DemandPage`, `SupplyPage`, `DemandMarketsPage`. |

**Pages that share a module.**

- `pages/02_Production_Efficiency.py`, `pages/Production_Efficiency.py` and
  `pages/efficiency.py` run the same computation. They share
  `Efficiency`/`EfficiencyPage`. The last two are byte-identical.
- `pages/05_Demand_Markets.py` and its draft `pages/Demand_Markets.py`
  compute the same values, except for the plotted grid (their titles, prose
  and references also differ). `DemandMarketsPage` takes that grid as a
  parameter.

## Model

| member | source | states |
|---|---|---|
| Sampling.Linspace | pages/Opportunity_Costs.py:27 | the i-th sample of np.linspace: the first is start, and with n ≥ 2 samples the last is exactly stop |
| Sampling.Grid | pages/Opportunity_Costs.py:27 | np.linspace(start, stop, n) has exactly n samples |
| Sampling.LinspaceArray | pages/Opportunity_Costs.py:90 | a fresh array, filled in a loop, holding exactly the linspace grid |
| Sampling.GridEnds | pages/Opportunity_Costs.py:27 | the grid starts at start and, with n ≥ 2 samples, ends exactly at stop |
| Sampling.GridSorted | pages/Opportunity_Costs.py:27 | an increasing grid is sorted and stays inside [start, stop] |
| Sampling.GridSymmetric | pages/Opportunity_Costs.py:90 | samples the same distance from both ends average to the midpoint (start + stop)/2 |
| Frontier.Radicand | pages/Opportunity_Costs.py:43 | inside = L − (x/e_x)² never exceeds L, and equals L at x = 0 |
| Frontier.InSliderRange | pages/Opportunity_Costs.py:167-170 | slider values L ∈ [1, 40], e_x, e_y ∈ [1, 20] are all positive, and the session defaults (20, 10, 10) are in range |
| Frontier.GlobalXMax | pages/Opportunity_Costs.py:12 | GLOBAL_x_max is positive and is the x-intercept at the slider maxima: (GLOBAL_x_max/MAX_e_x)² = MAX_L |
| Frontier.GlobalYMax | pages/Opportunity_Costs.py:13 | GLOBAL_y_max is positive and is the y-intercept at the slider maxima: (GLOBAL_y_max/MAX_e_y)² = MAX_L |
| Frontier.XMax | pages/Opportunity_Costs.py:23 | x_max = e_x·√L is non-negative, and (x_max/e_x)² = L, so the radicand vanishes there |
| Frontier.YMax | pages/Opportunity_Costs.py:24 | y_max = e_y·√L is non-negative, and (y_max/e_y)² = L |
| Frontier.PpfY | pages/Opportunity_Costs.py:38-44 | compute_ppf_y is non-negative for e_y ≥ 0 and is 0 wherever the radicand is not positive |
| Frontier.TangentSlope | pages/Opportunity_Costs.py:46-54 | the slope is 0 where the radicand is ≤ 0, never positive in the first quadrant, and strictly negative for x > 0 below the intercept |
| Frontier.OpportunityCost | pages/Opportunity_Costs.py:145 | the printed cost abs(slope) is non-negative and, in the first quadrant, equals −slope |
| Frontier.RadicandSign | pages/Opportunity_Costs.py:28-29 | for x ≥ 0 the radicand is ≥ 0 exactly when x ≤ x_max, and > 0 exactly when x < x_max |
| Frontier.PpfYAtIntercepts | pages/Opportunity_Costs.py:23-24 | compute_ppf_y(0) = y_max and compute_ppf_y(x_max) = 0 |
| Frontier.PpfYEven | pages/Opportunity_Costs.py:43-44 | compute_ppf_y(−x) = compute_ppf_y(x) |
| Frontier.PpfYBeyondIntercept | pages/01_Production_Possibility_Curve.py:37-43 | beyond the x-intercept the frontier is 0 and is not undefined |
| Frontier.PpfYOnFrontier | pages/Opportunity_Costs.py:38-44 | every (x, compute_ppf_y(x)) with 0 ≤ x ≤ x_max lies on the ellipse (x/e_x)² + (y/e_y)² = L |
| Frontier.OnFrontierIsPpfY | pages/Opportunity_Costs.py:38-44 | conversely, every first-quadrant point of the ellipse is (x, compute_ppf_y(x)) |
| Frontier.PpfYAntitone | pages/Opportunity_Costs.py:38-44 | for 0 ≤ x1 ≤ x2, compute_ppf_y(x2) ≤ compute_ppf_y(x1) |
| Frontier.PpfYAtMostYMax | pages/Opportunity_Costs.py:23-24 | compute_ppf_y(x) ≤ y_max at every x |
| Frontier.InterceptsFitAxes | pages/Opportunity_Costs.py:7-13 | with the sliders in range, 0 < x_max ≤ GLOBAL_x_max and 0 < y_max ≤ GLOBAL_y_max |
| Frontier.TangentSlopeZero | pages/Opportunity_Costs.py:51-53 | for x ≠ 0 and e_y ≠ 0 the slope is 0 exactly when the radicand is ≤ 0; at x = 0 it is 0 |
| Frontier.SlopeTimesDenominator | pages/Opportunity_Costs.py:54 | where the radicand is positive, slope·(e_x²·√inside) = −e_y·x with a positive denominator |
| Frontier.TangentSlopeIsImplicitDerivative | pages/Opportunity_Costs.py:46-54 | the slope is the derivative of the ellipse: e_y²·x + e_x²·slope·y = 0 |
| Frontier.TangentSupportsFrontier | pages/Opportunity_Costs.py:89-91 | the tangent line through a point with positive radicand lies on or above the frontier over its whole domain, so the frontier is concave |
| Frontier.CostIsQuotient | pages/Opportunity_Costs.py:145 | in the first quadrant, where the radicand is positive, the printed cost equals e_y·x/(e_x²·√inside) |
| Frontier.OpportunityCostIncreasing | pages/Opportunity_Costs.py:145 | the law of increasing opportunity cost: for 0 ≤ x1 < x2 < x_max, cost(x1) < cost(x2) |
| FrontierCurve.CurveXs | pages/Opportunity_Costs.py:33 | x_curve has num_curve_pts + 2 entries, starting at 0 and ending at x_max |
| FrontierCurve.CurveYs | pages/Opportunity_Costs.py:34 | y_curve has num_curve_pts + 2 entries, starting at y_max and ending at 0 |
| FrontierCurve.RadicandArray | pages/Opportunity_Costs.py:28 | a fresh array with inside[k] = L − (x_dense[k]/e_x)² |
| FrontierCurve.ClampNegatives | pages/Opportunity_Costs.py:29 | in place, every entry becomes max(old entry, 0) |
| FrontierCurve.RootArray | pages/Opportunity_Costs.py:30 | a fresh array with y_dense[k] = e_y·√inside[k] for every k |
| FrontierCurve.Concat3 | pages/Opportunity_Costs.py:33-34 | a fresh array holding [first] + middle + [last] |
| FrontierCurve.GenerateCurve | pages/Opportunity_Costs.py:16-36 | returns x_max = e_x·√L, y_max = e_y·√L and two fresh arrays holding CurveXs and CurveYs |
| FrontierCurve.CurveXsSorted | pages/Opportunity_Costs.py:27 | x_curve is sorted and lies in [0, x_max] |
| FrontierCurve.CurveYsArePpfY | pages/Opportunity_Costs.py:29-34 | every y_curve entry, both pinned ends included, equals compute_ppf_y at the matching x_curve entry |
| FrontierCurve.CurveYsNonnegative | pages/Opportunity_Costs.py:29-30 | every y_curve entry is ≥ 0 because negative radicands were zeroed before the root |
| FrontierCurve.CurveYsNonincreasing | pages/01_Production_Possibility_Curve.py:15-35 | y_curve never rises along the sample order |
| FrontierCurve.CurveOnFrontier | pages/01_Production_Possibility_Curve.py:15-35 | every sample lies on the frontier ellipse |
| FrontierCurve.CurveEndsRepeat | pages/Opportunity_Costs.py:33-34 | the pinned endpoints repeat the first and (n ≥ 2) the last dense sample |
| FrontierCurve.CurveFitsAxes | pages/02_Production_Efficiency.py:15-35 | with the sliders in range every sample is in [0, GLOBAL_x_max] × [0, GLOBAL_y_max] |
| MovingPoint.ClampAbove | pages/Opportunity_Costs.py:78-79 | the result is at most both the bound and the value, and is one of the two |
| MovingPoint.ClampAboveStable | pages/hw2.py:50-51 | a value within the bound is kept, and clamping twice equals clamping once |
| MovingPoint.InitialMove | pages/Opportunity_Costs.py:68 | the first x_move is exactly half of x_max |
| MovingPoint.InitialMoveInRange | pages/Opportunity_Costs.py:66-68 | the first x_move lies in [0, x_max] |
| MovingPoint.MoveSession.constructor | pages/Opportunity_Costs.py:60-68 | L = 20 and e_x = e_y = 10; x_move is half of x_max, and the session is valid |
| MovingPoint.MoveSession.SetSliders | pages/Opportunity_Costs.py:167-170 | the sliders store their new values and x_move is kept unchanged |
| MovingPoint.MoveSession.SetMove | pages/Opportunity_Costs.py:171-178 | the x_move slider stores a value in [0, x_max] |
| MovingPoint.MoveSession.ClampMove | pages/Opportunity_Costs.py:78-80 | x_move becomes ClampAbove(old x_move, x_max), ends at most x_max, and the session stays valid |
| MovingPoint.HalfSpan | pages/Opportunity_Costs.py:89 | Δ is positive and is one fifth of GLOBAL_x_max |
| MovingPoint.TangentXs | pages/Opportunity_Costs.py:89-90 | x_tan has 200 samples |
| MovingPoint.TangentYs | pages/Opportunity_Costs.py:91 | y_tan has one entry per x_tan sample |
| MovingPoint.TangentCollinear | pages/Opportunity_Costs.py:91 | any two tangent samples differ by slope·Δx, so the segment is a straight line of that slope |
| MovingPoint.TangentCentred | pages/Opportunity_Costs.py:88-91 | the segment spans x_move ± Δ, and mirrored samples average to (x_move, y_move) |
| MovingPoint.TangentAboveFrontier | pages/Opportunity_Costs.py:83-91 | for x_move with positive radicand (0 ≤ x_move < x_max), every tangent sample in the frontier's domain is on or above the frontier |
| MovingPoint.TangentAtInterceptIsFlat | pages/Opportunity_Costs.py:78-91 | at x_move = x_max (the slider's maximum and the clamp's target) the slope and y_move are 0, so every sample of the drawn segment is 0, and strictly below the frontier wherever the frontier is positive |
| Efficiency.Threshold | pages/02_Production_Efficiency.py:72 | the threshold is non-negative for e_y ≥ 0 |
| Efficiency.ThresholdIsPpfY | pages/02_Production_Efficiency.py:72 | the vectorised threshold equals compute_ppf_y at the same x |
| Efficiency.Classify | pages/02_Production_Efficiency.py:75-78 | near ⇔ t − 2 ≤ y ≤ t + 2; inside ⇔ y < t − 2; outside ⇔ y > t |
| Efficiency.ClassifyCover | pages/02_Production_Efficiency.py:75-78 | every point gets a class; inside excludes outside and near; a point on the curve is near; near and outside overlap exactly when t < y ≤ t + 2 |
| Efficiency.Thresholds | pages/02_Production_Efficiency.py:72 | one threshold per sample point |
| Efficiency.Classes | pages/02_Production_Efficiency.py:76-78 | one class per sample point |
| Efficiency.NearMask | pages/efficiency.py:72 | is_near_curve has one entry per point, true exactly for the near points |
| Efficiency.InsideMask | pages/efficiency.py:73 | is_inside has one entry per point, true exactly for the inside points |
| Efficiency.OutsideMask | pages/efficiency.py:74 | is_outside has one entry per point, true exactly for the outside points |
| Efficiency.Select | pages/02_Production_Efficiency.py:80-85 | vals[mask] is no longer than vals |
| Efficiency.Indices | pages/02_Production_Efficiency.py:80-85 | the true positions of a mask are no more than its length |
| Efficiency.IndicesSpec | pages/02_Production_Efficiency.py:80-85 | Indices lists exactly the true positions of the mask, in strictly increasing order |
| Efficiency.SelectAtIndices | pages/02_Production_Efficiency.py:80-85 | vals[mask] is vals taken at Indices(mask), one for one and in order |
| Efficiency.Split | pages/02_Production_Efficiency.py:72-85 | for each class the filtered x and y lists have equal lengths, at most the number of sample points |
| Efficiency.SplitPairs | pages/Production_Efficiency.py:76-81 | each filtered (x, y) pair comes from one index of x_rand/y_rand and has its list's class; paired lists have equal lengths |
| Efficiency.SplitCovers | pages/Production_Efficiency.py:72-74 | every sample point appears in at least one list and never in both inside and outside |
| EfficiencyPage.Render | pages/02_Production_Efficiency.py:69-85 | a rerun draws the sampled frontier and the Split of the sample points |
| EfficiencyPage.OnCurveIsNear | pages/efficiency.py:68-74 | a sample point on the frontier is near, and an inside point is more than the tolerance below the curve |
| OpportunityCostsPage.PageView | pages/Opportunity_Costs.py:83-91 | the view holds a curve of 500 + 2 samples, the current x_max, a 200-sample tangent and a non-negative cost at the given x_move |
| OpportunityCostsPage.Rerun | pages/Opportunity_Costs.py:74-91 | the rerun clamps x_move in the session and returns PageView of the clamped state |
| OpportunityCostsPage.PageViewSpec | pages/Opportunity_Costs.py:83-91 | the moving point is on the frontier; the slope is ≤ 0 and the printed cost equals −slope; the tangent has 200 samples spanning x_move ± Δ |
| Hw2Page.InitialMove | pages/hw2.py:33-34 | (e_x·√L)/2 equals the opportunity-cost page's first x_move |
| Hw2Page.Rerun | pages/hw2.py:48-58 | x_move is clamped to x_max in the session; y_move and slope_at_move are the frontier and its slope at the clamped x_move |
| Hw2Page.RerunPointSpec | pages/hw2.py:56-58 | after the clamp the point is on the frontier, the slope is ≤ 0, and it is 0 exactly at x = 0 and x = x_max |
| PpcPage.AxisXMax | pages/01_Production_Possibility_Curve.py:79 | the x-axis range ends 2% past GLOBAL_x_max: strictly beyond it, by GLOBAL_x_max/50 |
| PpcPage.AxisYMax | pages/01_Production_Possibility_Curve.py:84 | the y-axis range ends 2% past GLOBAL_y_max: strictly beyond it, by GLOBAL_y_max/50 |
| PpcPage.Render | pages/01_Production_Possibility_Curve.py:60-84 | the computed curve is generate_curve's output, and every sample lies inside the axis ranges [0, 1.02·GLOBAL_max] the figure targets |
| LinearMarket.PriceAt | pages/Equilibrium_Under_Shifts.py:20-21 | P = m·Q + b is the intercept at Q = 0, below it at positive Q on a falling curve and above it on a rising one |
| LinearMarket.Shift | pages/04_Demand.py:43-44 | a vertical shift keeps the slope |
| LinearMarket.ShiftMovesEveryPrice | pages/04_Demand.py:42-44 | at every quantity the shifted curve is exactly `shift` above the original |
| LinearMarket.ShiftRoundTrip | pages/06_Supply.py:49-50 | a zero shift is the identity, and shifting back by −shift undoes a shift |
| LinearMarket.Prices | pages/Equilibrium_Under_Shifts.py:20-21 | one price per plotted quantity |
| LinearMarket.ShiftedPricesDiffer | pages/06_Supply.py:52-54 | sample by sample, shifted prices exceed the original ones by the shift |
| LinearMarket.Intersection | pages/Equilibrium_Under_Shifts.py:23-26 | the analytic intersection lies on both lines |
| LinearMarket.IntersectionUnique | pages/Equilibrium_Under_Shifts.py:23-26 | it is the only common point of two lines of different slope |
| LinearMarket.ShiftPage | pages/04_Demand.py:41-48 | the shifted curve is the base shifted by the current slider value, not an accumulated one; the dot is at x_pos, `shift` above the base curve's price there; both sampled curves have one price per quantity |
| LinearMarket.ShiftPageSpec | pages/06_Supply.py:49-58 | the dot lies on the shifted curve, which keeps the base slope, and every plotted shifted price is `shift` above the original |
| LinearMarket.ShiftPageCurvesIgnoreDot | pages/04_Demand.py:19-26 | moving the dot changes neither curve |
| LinearMarket.ShiftPageZero | pages/04_Demand.py:14-15 | with shift 0 the shifted curve and its samples are the original ones |
| EquilibriumPage.PlotQs | pages/Equilibrium_Under_Shifts.py:17 | the plotted Q grid has 100 samples from 0 to 10 |
| EquilibriumPage.Demand | pages/Equilibrium_Under_Shifts.py:13 | demand P = −Q + I_d prices I_d at Q = 0, reaches 0 at Q = I_d and falls strictly in Q |
| EquilibriumPage.Supply | pages/Equilibrium_Under_Shifts.py:14 | supply P = Q + I_s prices I_s at Q = 0 and rises strictly in Q |
| EquilibriumPage.Equilibrium | pages/Equilibrium_Under_Shifts.py:12-26 | Q* = (I_d − I_s)/2, P* = (I_d + I_s)/2, and the point is on both demand and supply |
| EquilibriumPage.Curves | pages/Equilibrium_Under_Shifts.py:17-21 | P_demand and P_supply have one entry per plotted Q |
| EquilibriumPage.CurvesCrossAtEquilibrium | pages/Equilibrium_Under_Shifts.py:17-26 | at each plotted Q, demand is above supply exactly left of Q* and equal to it exactly at Q* |
| EquilibriumPage.DefaultEquilibrium | pages/Equilibrium_Under_Shifts.py:9-10 | at the default intercept the demand is P = −Q + 5, and the defaults 5 and 5 give the equilibrium (0, 5) |
| EquilibriumPage.EquilibriumShifts | pages/Equilibrium_Under_Shifts.py:67-85 | raising demand raises Q* and P*; raising supply lowers Q* and raises P* |
| EquilibriumPage.EquilibriumRange | pages/Equilibrium_Under_Shifts.py:68-85 | for slider intercepts in [0, 10]: Q* ∈ [−5, 5] and is negative exactly when I_s > I_d; P* ∈ [0, 10] |
| DemandPage.Render | pages/04_Demand.py:41-48 | the shifted demand is P = −Q + (5 + ΔP) and the dot's price is −x_pos + 5 + ΔP |
| DemandPage.DefaultView | pages/04_Demand.py:12-15 | the first visit shows the dot at (2.5, 2.5) on the unshifted curve |
| DemandPage.DotFallsAlongDemand | pages/04_Demand.py:47-48 | for a fixed shift, moving the dot right strictly lowers its price |
| SupplyPage.OriginalSupply | pages/06_Supply.py:49-53 | the original supply prices Q + 5 at every Q, so 5 at Q = 0 |
| SupplyPage.Render | pages/06_Supply.py:49-58 | the shifted supply is P = Q + (5 + ΔP) and the dot's price is x_pos + 5 + ΔP |
| SupplyPage.DotRisesAlongSupply | pages/06_Supply.py:57-58 | for a fixed shift, the dot's price is strictly increasing in x_pos |
| SupplyPage.ZeroShiftRestoresOriginal | pages/06_Supply.py:21-24 | a zero shift gives back P = Q + 5, curve and samples |
| DemandMarketsPage.LeftPrice | pages/05_Demand_Markets.py:39 | the left dot lies on the demand P = −Q + 5 |
| DemandMarketsPage.RightShift | pages/05_Demand_Markets.py:44-48 | delta_p = 2.5 − x_left for substitutes and x_left − 2.5 for complements |
| DemandMarketsPage.Changes | pages/05_Demand_Markets.py:52-57 | the right ΔQ is always 0, and the right ΔP is delta_p |
| DemandMarketsPage.ChangesSpec | pages/05_Demand_Markets.py:44-57 | left ΔP = −left ΔQ; right ΔP = left ΔP for substitutes and its negation for complements |
| DemandMarketsPage.ModesOpposite | pages/Demand_Markets.py:31-35 | the two modes shift the right curve by opposite amounts, and they agree exactly when x_left = 2.5 |
| DemandMarketsPage.RightView | pages/05_Demand_Markets.py:112-160 | the right curve is P = −Q + 5 shifted by delta_p, and its dot is at (2.5, 2.5 + delta_p) |
| DemandMarketsPage.RightViewSpec | pages/05_Demand_Markets.py:118-119 | every price plotted on the right is delta_p above the original demand's price at the same quantity |
| DemandMarketsPage.RightDotTracksLeft | pages/Demand_Markets.py:99-147 | for substitutes the right dot's price equals the left dot's; for complements the two mirror each other around 2.5 |
| DemandMarketsPage.DefaultUnchanged | pages/05_Demand_Markets.py:34-36 | at the default x_left = 2.5 all four changes are 0 and the right curve is the original demand |
| DemandMarketsPage.ChangesBounded | pages/05_Demand_Markets.py:186-193 | for x_left ∈ [0, 5], both ΔP lie in [−2.5, 2.5] and the right dot's price lies in [0, 5] |
| DemandMarketsPage.RightShiftMonotone | pages/05_Demand_Markets.py:44-48 | moving the left dot right lowers the right price for substitutes and raises it for complements |

## Left out

- Plotting, layout, colours, titles, Markdown prose and widget styling. The
  Plotly and matplotlib figures are not modelled. Only their data and the
  fixed axis ranges are.
- `st.cache_data` memoisation. It does not change any value.
- Streamlit's rerun loop. One rerun is one call of a page's `Render` or
  `Rerun`. The session is the `MoveSession` object. Sliders write to the
  session through `SetSliders` and `SetMove`.
- Floating point. Every quantity is an exact real, so IEEE rounding,
  `float()`/`int()` casts and `numpy.float64` versus Python `float` are
  not modelled. In exact arithmetic the last `np.linspace` sample equals
  `stop` exactly.
- `np.sqrt`. It is a parameter `sqrt` constrained by `IsSqrt`: non-negative,
  and it squares back to its argument on non-negative input. No particular
  root function is built in.
- The random sample points (`generate_random_points_global`: seeded
  `np.random.uniform` over the global box). They are inputs to
  `EfficiencyPage.Render`. The model holds for every list of points, not
  only for the seeded 30.
- `Frontier.Radicand`: requires `0 < e_x`. The sliders never go below 1.
  With `e_x = 0`, `compute_ppf_y` and `compute_tangent_slope` divide a
  Python float by the integer 0 and raise ZeroDivisionError, while
  `generate_curve` divides a numpy array by 0 and yields nan. Neither error
  path is modelled. Every member that uses the radicand inherits this
  requirement.
- `LinearMarket.Intersection`: requires the two slopes to differ. There
  the general formula of `pages/Equilibrium_Under_Shifts.py` (line 25)
  would raise ZeroDivisionError. That error path is not modelled. The page
  itself cannot reach it, because its slopes are the constants −1 and 1.
- `MovingPoint.TangentAboveFrontier` holds only where the radicand at
  x_move is positive (0 ≤ x_move < x_max). At x_move = x_max, which the
  slider allows (`pages/Opportunity_Costs.py`, lines 171-178) and the clamp
  produces (lines 78-80), the page draws the flat segment y = 0, which is not
  a supporting tangent; `MovingPoint.TangentAtInterceptIsFlat` states that
  case.
- `PpcPage.Render`: `pages/01_Production_Possibility_Curve.py` passes
  `fill='tozeroy'` inside the `line` style (line 70), a property Plotly's
  line style does not have. As written, every rerun stops with an error
  after `generate_curve`, so the figure, its fixed axis ranges (lines 76-88)
  and the sidebar slider (line 102) are never reached. The model covers the
  computed curve and proves that it fits the axis ranges the figure
  targets. It does not model the failure.
- `Hw2Page.Rerun`: the `generate_curve` of `pages/hw2.py` (lines 6-10) is a
  stub. It returns the names `x_curve` and `y_curve`, which it never
  defines. Only its `x_max` is used by the page, so the model takes
  `x_max = e_x·√L` and does not model the stub's failure. The page's
  figures, which the source omits, are not modelled either.
- `pages/Opportunity_Costs.py` is wrapped in Markdown code fences (its
  first and last lines). The model is of the Python between them.
- `streamlit_app.py` and `pages/Z-On_Inquiry_Learning.py` hold prose and
  navigation only. They are not part of this model.
- Near and outside are not disjoint as written (see `Efficiency.ClassifyCover`).
  A point up to the tolerance above the curve is in both lists and is drawn
  twice. The model keeps this behaviour and states the overlap exactly.
- Slider steps (integer `L`, `e_x`, `e_y`; steps of 0.05, 0.1 and 0.5
  elsewhere) are not modelled. The lemmas hold for every real value in each
  slider's range.
