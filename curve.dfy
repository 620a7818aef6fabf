/** generate_curve: the sampled frontier that the PPF pages draw. It takes
    num_curve_pts evenly spaced x in [0, x_max], evaluates the frontier there
    (clamping negative radicands to 0 in place), and then pins the curve to
    the axes by prepending (0, y_max) and appending (x_max, 0). */
module FrontierCurve {
  import opened RealSqrt
  import opened Sampling
  import opened Frontier

  /** num_curve_pts, as every page calls generate_curve with its default. */
  const DefaultPoints: nat := 500

  /** x_curve: 0, then np.linspace(0, x_max, n), then x_max. */
  function CurveXs(sqrt: real -> real, p: Params, n: nat): (xs: seq<real>)
    requires IsSqrt(sqrt) && 0.0 <= p.labour
    ensures |xs| == n + 2
    ensures xs[0] == 0.0 && xs[n + 1] == XMax(sqrt, p)
  {
    [0.0] + Grid(0.0, XMax(sqrt, p), n) + [XMax(sqrt, p)]
  }

  /** y_curve: y_max, then the frontier's height at each dense x, then 0. */
  function CurveYs(sqrt: real -> real, p: Params, n: nat): (ys: seq<real>)
    requires IsSqrt(sqrt) && 0.0 <= p.labour && 0.0 < p.ex
    ensures |ys| == n + 2
    ensures ys[0] == YMax(sqrt, p) && ys[n + 1] == 0.0
  {
    var g := Grid(0.0, XMax(sqrt, p), n);
    [YMax(sqrt, p)] + seq(n, i requires 0 <= i < n => PpfY(sqrt, p, g[i])) + [0.0]
  }

  /** inside = L - (x_dense / e_x) ** 2, elementwise into a new array. */
  method RadicandArray(p: Params, xs: array<real>) returns (inside: array<real>)
    requires 0.0 < p.ex
    ensures fresh(inside) && inside.Length == xs.Length
    ensures forall k :: 0 <= k < xs.Length ==> inside[k] == Radicand(p, xs[k])
  {
    inside := new real[xs.Length];
    var i := 0;
    while i < xs.Length
      invariant 0 <= i <= xs.Length
      invariant forall k :: 0 <= k < i ==> inside[k] == Radicand(p, xs[k])
    {
      inside[i] := p.labour - (xs[i] / p.ex) * (xs[i] / p.ex);
      i := i + 1;
    }
  }

  /** inside[inside < 0] = 0.0: every negative entry is replaced by 0, in place. */
  method ClampNegatives(a: array<real>)
    modifies a
    ensures forall k :: 0 <= k < a.Length ==> a[k] == Max(old(a[k]), 0.0)
  {
    var i := 0;
    while i < a.Length
      invariant 0 <= i <= a.Length
      invariant forall k :: 0 <= k < i ==> a[k] == Max(old(a[k]), 0.0)
      invariant forall k :: i <= k < a.Length ==> a[k] == old(a[k])
    {
      if a[i] < 0.0 {
        a[i] := 0.0;
      }
      i := i + 1;
    }
  }

  /** y_dense = e_y * np.sqrt(inside), elementwise into a new array. */
  method RootArray(sqrt: real -> real, ey: real, inside: array<real>) returns (ys: array<real>)
    requires IsSqrt(sqrt)
    ensures fresh(ys) && ys.Length == inside.Length
    ensures forall k :: 0 <= k < inside.Length ==> ys[k] == ey * sqrt(inside[k])
  {
    ys := new real[inside.Length];
    var i := 0;
    while i < inside.Length
      invariant 0 <= i <= inside.Length
      invariant forall k :: 0 <= k < i ==> ys[k] == ey * sqrt(inside[k])
    {
      ys[i] := ey * sqrt(inside[i]);
      i := i + 1;
    }
  }

  /** np.concatenate(([first], mid, [last])). */
  method Concat3(first: real, mid: array<real>, last: real) returns (c: array<real>)
    ensures fresh(c) && c[..] == [first] + mid[..] + [last]
  {
    c := new real[mid.Length + 2];
    c[0] := first;
    var i := 0;
    while i < mid.Length
      invariant 0 <= i <= mid.Length
      invariant c[0] == first
      invariant forall k :: 0 <= k < i ==> c[k + 1] == mid[k]
    {
      c[i + 1] := mid[i];
      i := i + 1;
    }
    c[mid.Length + 1] := last;
    assert c[..] == [first] + mid[..] + [last];
  }

  /** generate_curve(e_x, e_y, L, num_curve_pts): samples x_dense, computes the
      radicands, zeroes the negative ones in place, takes the roots, and
      concatenates the axis endpoints around the dense samples. */
  method GenerateCurve(sqrt: real -> real, p: Params, numCurvePts: nat)
    returns (xCurve: array<real>, yCurve: array<real>, xMax: real, yMax: real)
    requires IsSqrt(sqrt) && 0.0 <= p.labour && 0.0 < p.ex
    ensures fresh(xCurve) && fresh(yCurve)
    ensures xMax == XMax(sqrt, p) && yMax == YMax(sqrt, p)
    ensures xCurve[..] == CurveXs(sqrt, p, numCurvePts)
    ensures yCurve[..] == CurveYs(sqrt, p, numCurvePts)
  {
    var n := numCurvePts;
    xMax := p.ex * sqrt(p.labour);
    yMax := p.ey * sqrt(p.labour);
    assert xMax == XMax(sqrt, p) && yMax == YMax(sqrt, p);
    var xDense := LinspaceArray(0.0, xMax, n);
    var inside := RadicandArray(p, xDense);
    ghost var raw := inside[..];
    ClampNegatives(inside);
    var yDense := RootArray(sqrt, p.ey, inside);
    ghost var xs, ys := xDense[..], yDense[..];
    DenseYsArePpfY(sqrt, p, xs, raw, inside[..], ys);
    assert xs == Grid(0.0, XMax(sqrt, p), n);
    xCurve := Concat3(0.0, xDense, xMax);
    yCurve := Concat3(yMax, yDense, 0.0);
    assert yCurve[..] == [yMax] + ys + [0.0];
  }

  /** The three array stages of generate_curve, stated on their contents,
      compose to compute_ppf_y at every dense x. */
  lemma DenseYsArePpfY(sqrt: real -> real, p: Params, xs: seq<real>, raw: seq<real>,
                       clamped: seq<real>, ys: seq<real>)
    requires IsSqrt(sqrt) && 0.0 < p.ex
    requires |raw| == |xs| && |clamped| == |xs| && |ys| == |xs|
    requires forall k :: 0 <= k < |xs| ==> raw[k] == Radicand(p, xs[k])
    requires forall k :: 0 <= k < |xs| ==> clamped[k] == Max(raw[k], 0.0)
    requires forall k :: 0 <= k < |xs| ==> ys[k] == p.ey * sqrt(clamped[k])
    ensures ys == seq(|xs|, i requires 0 <= i < |xs| => PpfY(sqrt, p, xs[i]))
  {
    var want := seq(|xs|, i requires 0 <= i < |xs| => PpfY(sqrt, p, xs[i]));
    forall k | 0 <= k < |xs|
      ensures ys[k] == want[k]
    {
      assert ys[k] == p.ey * sqrt(Max(Radicand(p, xs[k]), 0.0));
    }
  }

  // ----- properties of the sampled curve -----

  /** The x samples are sorted and stay within [0, x_max]. */
  lemma CurveXsSorted(sqrt: real -> real, p: Params, n: nat, i: nat, j: nat)
    requires IsSqrt(sqrt) && 0.0 <= p.labour && 0.0 < p.ex && i <= j < n + 2
    ensures 0.0 <= CurveXs(sqrt, p, n)[i] <= CurveXs(sqrt, p, n)[j] <= XMax(sqrt, p)
  {
    var xs, g, xMax := CurveXs(sqrt, p, n), Grid(0.0, XMax(sqrt, p), n), XMax(sqrt, p);
    assert 0.0 <= xMax by {
      MulNonneg(p.ex, sqrt(p.labour));
    }
    if 1 <= i && j <= n {
      GridSorted(0.0, xMax, n, i - 1, j - 1);
    } else if 1 <= i <= n {
      GridSorted(0.0, xMax, n, i - 1, i - 1);
    } else if 1 <= j <= n {
      GridSorted(0.0, xMax, n, j - 1, j - 1);
    }
  }

  /** Every y sample is the frontier's height at the matching x sample, the two
      endpoints included: y_curve[k] == compute_ppf_y(x_curve[k]). */
  lemma CurveYsArePpfY(sqrt: real -> real, p: Params, n: nat, k: nat)
    requires IsSqrt(sqrt) && 0.0 <= p.labour && 0.0 < p.ex && k < n + 2
    ensures CurveYs(sqrt, p, n)[k] == PpfY(sqrt, p, CurveXs(sqrt, p, n)[k])
  {
    PpfYAtIntercepts(sqrt, p);
  }

  /** Every sampled y is non-negative (negative radicands were zeroed before the root). */
  lemma CurveYsNonnegative(sqrt: real -> real, p: Params, n: nat, k: nat)
    requires IsSqrt(sqrt) && 0.0 <= p.labour && 0.0 < p.ex && 0.0 <= p.ey && k < n + 2
    ensures 0.0 <= CurveYs(sqrt, p, n)[k]
  {
    CurveYsArePpfY(sqrt, p, n, k);
  }

  /** Along the sample order y never rises. */
  lemma CurveYsNonincreasing(sqrt: real -> real, p: Params, n: nat, i: nat, j: nat)
    requires IsSqrt(sqrt) && 0.0 <= p.labour && 0.0 < p.ex && 0.0 <= p.ey && i <= j < n + 2
    ensures CurveYs(sqrt, p, n)[j] <= CurveYs(sqrt, p, n)[i]
  {
    var xs := CurveXs(sqrt, p, n);
    CurveXsSorted(sqrt, p, n, i, j);
    CurveYsArePpfY(sqrt, p, n, i);
    CurveYsArePpfY(sqrt, p, n, j);
    PpfYAntitone(sqrt, p, xs[i], xs[j]);
  }

  /** Every sample, the two prepended and appended endpoints included, lies on
      the frontier ellipse. */
  lemma CurveOnFrontier(sqrt: real -> real, p: Params, n: nat, k: nat)
    requires IsSqrt(sqrt) && 0.0 <= p.labour && 0.0 < p.ex && 0.0 < p.ey && k < n + 2
    ensures OnFrontier(p, CurveXs(sqrt, p, n)[k], CurveYs(sqrt, p, n)[k])
  {
    var xs := CurveXs(sqrt, p, n);
    CurveXsSorted(sqrt, p, n, k, k);
    CurveYsArePpfY(sqrt, p, n, k);
    PpfYOnFrontier(sqrt, p, xs[k]);
  }

  /** In exact arithmetic the endpoint pins repeat the dense samples next to them:
      x_dense starts at 0 with height y_max, and (for two or more samples) ends at
      x_max with height 0. */
  lemma CurveEndsRepeat(sqrt: real -> real, p: Params, n: nat)
    requires IsSqrt(sqrt) && 0.0 <= p.labour && 0.0 < p.ex
    ensures 1 <= n ==> (CurveXs(sqrt, p, n)[1] == CurveXs(sqrt, p, n)[0] &&
                        CurveYs(sqrt, p, n)[1] == CurveYs(sqrt, p, n)[0])
    ensures 2 <= n ==> (CurveXs(sqrt, p, n)[n] == CurveXs(sqrt, p, n)[n + 1] &&
                        CurveYs(sqrt, p, n)[n] == CurveYs(sqrt, p, n)[n + 1])
  {
    GridEnds(0.0, XMax(sqrt, p), n);
    if 1 <= n {
      CurveYsArePpfY(sqrt, p, n, 1);
      CurveYsArePpfY(sqrt, p, n, 0);
    }
    if 2 <= n {
      CurveYsArePpfY(sqrt, p, n, n);
      CurveYsArePpfY(sqrt, p, n, n + 1);
    }
  }

  /** With the sliders in range, every sample lies in the fixed plotting box
      [0, GLOBAL_x_max] × [0, GLOBAL_y_max]. */
  lemma CurveFitsAxes(sqrt: real -> real, p: Params, n: nat, k: nat)
    requires IsSqrt(sqrt) && InSliderRange(p) && k < n + 2
    ensures 0.0 <= CurveXs(sqrt, p, n)[k] <= GlobalXMax(sqrt)
    ensures 0.0 <= CurveYs(sqrt, p, n)[k] <= GlobalYMax(sqrt)
  {
    InterceptsFitAxes(sqrt, p);
    CurveXsSorted(sqrt, p, n, k, k);
    CurveYsNonnegative(sqrt, p, n, k);
    CurveYsNonincreasing(sqrt, p, n, 0, k);
  }
}
