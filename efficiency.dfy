/** Classification of sample points against the frontier, as the efficiency
    pages colour them: a point is "near" the curve when it is within the
    tolerance of the frontier's height above it, "inside" when it is below the
    curve and not near, and "outside" when it is above the curve. The x and y
    arrays are then filtered by each mask. */
module Efficiency {
  import opened RealSqrt
  import opened Frontier

  /** tolerance = 2.0, measured vertically. */
  const Tolerance: real := 2.0

  /** One entry of ppf_thresholds: e_y·√max(0, L − (x/e_x)²). */
  function Threshold(sqrt: real -> real, p: Params, x: real): (t: real)
    requires IsSqrt(sqrt) && 0.0 < p.ex
    ensures 0.0 <= p.ey ==> 0.0 <= t
  {
    p.ey * sqrt(Max(0.0, Radicand(p, x)))
  }

  /** The threshold is the frontier itself: np.maximum(0, inside) clamps exactly
      as compute_ppf_y does. */
  lemma ThresholdIsPpfY(sqrt: real -> real, p: Params, x: real)
    requires IsSqrt(sqrt) && 0.0 < p.ex
    ensures Threshold(sqrt, p, x) == PpfY(sqrt, p, x)
  {
    assert Max(0.0, Radicand(p, x)) == Max(Radicand(p, x), 0.0);
  }

  /** The three mask entries of one point. */
  datatype Class = Class(near: bool, inside: bool, outside: bool)

  /** is_near_curve, is_inside and is_outside for a point at height y above
      which the frontier has height t. As bands around the curve: near is the
      closed band of width 2·tolerance around t, inside is strictly below that
      band, outside is strictly above the curve. */
  function Classify(y: real, t: real): (c: Class)
    ensures c.near <==> t - Tolerance <= y <= t + Tolerance
    ensures c.inside <==> y < t - Tolerance
    ensures c.outside <==> t < y
  {
    var near := Abs(y - t) <= Tolerance;
    Class(near, y < t && !near, y > t)
  }

  /** Every point is coloured; inside and outside never meet, and inside is
      never near; a point on the curve is near; near and outside overlap exactly
      on the band just above the curve, t < y ≤ t + tolerance. */
  lemma ClassifyCover(y: real, t: real)
    ensures var c := Classify(y, t); c.near || c.inside || c.outside
    ensures var c := Classify(y, t); !(c.inside && c.outside) && !(c.inside && c.near)
    ensures Classify(t, t).near
    ensures var c := Classify(y, t); c.near && c.outside <==> t < y <= t + Tolerance
  {
  }

  // ----- masks and boolean indexing -----

  /** ppf_thresholds for a whole array of x. */
  function Thresholds(sqrt: real -> real, p: Params, xs: seq<real>): (ts: seq<real>)
    requires IsSqrt(sqrt) && 0.0 < p.ex
    ensures |ts| == |xs|
  {
    seq(|xs|, i requires 0 <= i < |xs| => Threshold(sqrt, p, xs[i]))
  }

  /** The classes of every point, index by index. */
  function Classes(ys: seq<real>, ts: seq<real>): (cs: seq<Class>)
    requires |ys| == |ts|
    ensures |cs| == |ys|
  {
    seq(|ys|, i requires 0 <= i < |ys| => Classify(ys[i], ts[i]))
  }

  function NearMask(cs: seq<Class>): (mask: seq<bool>)
    ensures |mask| == |cs| && forall i :: 0 <= i < |cs| ==> (mask[i] <==> cs[i].near)
  {
    seq(|cs|, i requires 0 <= i < |cs| => cs[i].near)
  }

  function InsideMask(cs: seq<Class>): (mask: seq<bool>)
    ensures |mask| == |cs| && forall i :: 0 <= i < |cs| ==> (mask[i] <==> cs[i].inside)
  {
    seq(|cs|, i requires 0 <= i < |cs| => cs[i].inside)
  }

  function OutsideMask(cs: seq<Class>): (mask: seq<bool>)
    ensures |mask| == |cs| && forall i :: 0 <= i < |cs| ==> (mask[i] <==> cs[i].outside)
  {
    seq(|cs|, i requires 0 <= i < |cs| => cs[i].outside)
  }

  /** vals[mask]: the entries whose mask entry is true, in their original order. */
  function Select(vals: seq<real>, mask: seq<bool>): (r: seq<real>)
    requires |vals| == |mask|
    ensures |r| <= |vals|
  {
    if |vals| == 0 then []
    else
      var n := |vals| - 1;
      Select(vals[..n], mask[..n]) + (if mask[n] then [vals[n]] else [])
  }

  /** np.nonzero(mask): the positions of the true entries, in increasing order. */
  function Indices(mask: seq<bool>): (ix: seq<nat>)
    ensures |ix| <= |mask|
  {
    if |mask| == 0 then []
    else
      var n := |mask| - 1;
      Indices(mask[..n]) + (if mask[n] then [n] else [])
  }

  /** Indices lists exactly the true positions, each once, in increasing order. */
  lemma {:induction false} IndicesSpec(mask: seq<bool>)
    ensures forall k :: 0 <= k < |Indices(mask)| ==>
      Indices(mask)[k] < |mask| && mask[Indices(mask)[k]]
    ensures forall k, l :: 0 <= k < l < |Indices(mask)| ==> Indices(mask)[k] < Indices(mask)[l]
    ensures forall j :: 0 <= j < |mask| && mask[j] ==> j in Indices(mask)
  {
    if |mask| != 0 {
      var n := |mask| - 1;
      var prev, last := Indices(mask[..n]), if mask[n] then [n] else [];
      IndicesSpec(mask[..n]);
      assert Indices(mask) == prev + last;
      forall k | 0 <= k < |prev|
        ensures prev[k] < n && mask[prev[k]]
      {
        assert mask[..n][prev[k]];
      }
      forall j | 0 <= j < n && mask[j]
        ensures j in prev
      {
        assert mask[..n][j];
      }
    }
  }

  /** Boolean indexing picks vals at the positions Indices(mask), one for one. */
  lemma {:induction false} SelectAtIndices(vals: seq<real>, mask: seq<bool>)
    requires |vals| == |mask|
    ensures |Select(vals, mask)| == |Indices(mask)|
    ensures forall k :: 0 <= k < |Indices(mask)| ==>
      Indices(mask)[k] < |vals| && Select(vals, mask)[k] == vals[Indices(mask)[k]]
  {
    if |vals| != 0 {
      var n := |vals| - 1;
      SelectAtIndices(vals[..n], mask[..n]);
      IndicesSpec(mask[..n]);
    }
  }

  /** The six filtered arrays the pages scatter. */
  datatype Scatter = Scatter(
    xNear: seq<real>, yNear: seq<real>,
    xInside: seq<real>, yInside: seq<real>,
    xOutside: seq<real>, yOutside: seq<real>)

  /** Thresholds, masks and filtering for the sample points (xs, ys). The x and
      y lists of each class pair up one for one, and no list is longer than
      the sample. */
  function Split(sqrt: real -> real, p: Params, xs: seq<real>, ys: seq<real>): (s: Scatter)
    requires IsSqrt(sqrt) && 0.0 < p.ex && |xs| == |ys|
    ensures |s.xNear| == |s.yNear| <= |xs|
    ensures |s.xInside| == |s.yInside| <= |xs|
    ensures |s.xOutside| == |s.yOutside| <= |xs|
  {
    var cs := Classes(ys, Thresholds(sqrt, p, xs));
    var near, inside, outside := NearMask(cs), InsideMask(cs), OutsideMask(cs);
    SelectAtIndices(xs, near);
    SelectAtIndices(ys, near);
    SelectAtIndices(xs, inside);
    SelectAtIndices(ys, inside);
    SelectAtIndices(xs, outside);
    SelectAtIndices(ys, outside);
    Scatter(Select(xs, near), Select(ys, near),
            Select(xs, inside), Select(ys, inside),
            Select(xs, outside), Select(ys, outside))
  }

  /** Each filtered pair (x_k, y_k) is one original point, taken from the same
      index j of x_rand and y_rand, and that point has the class of its list;
      the x and y lists of a class have the same length, and the indices increase,
      so the original order is kept. */
  lemma SplitPairs(sqrt: real -> real, p: Params, xs: seq<real>, ys: seq<real>)
    requires IsSqrt(sqrt) && 0.0 < p.ex && |xs| == |ys|
    ensures var s, cs := Split(sqrt, p, xs, ys), Classes(ys, Thresholds(sqrt, p, xs));
      |s.xNear| == |s.yNear| == |Indices(NearMask(cs))| &&
      forall k :: 0 <= k < |s.xNear| ==>
        var j := Indices(NearMask(cs))[k];
        j < |xs| && s.xNear[k] == xs[j] && s.yNear[k] == ys[j] &&
        Classify(ys[j], Threshold(sqrt, p, xs[j])).near
    ensures var s, cs := Split(sqrt, p, xs, ys), Classes(ys, Thresholds(sqrt, p, xs));
      |s.xInside| == |s.yInside| == |Indices(InsideMask(cs))| &&
      forall k :: 0 <= k < |s.xInside| ==>
        var j := Indices(InsideMask(cs))[k];
        j < |xs| && s.xInside[k] == xs[j] && s.yInside[k] == ys[j] &&
        Classify(ys[j], Threshold(sqrt, p, xs[j])).inside
    ensures var s, cs := Split(sqrt, p, xs, ys), Classes(ys, Thresholds(sqrt, p, xs));
      |s.xOutside| == |s.yOutside| == |Indices(OutsideMask(cs))| &&
      forall k :: 0 <= k < |s.xOutside| ==>
        var j := Indices(OutsideMask(cs))[k];
        j < |xs| && s.xOutside[k] == xs[j] && s.yOutside[k] == ys[j] &&
        Classify(ys[j], Threshold(sqrt, p, xs[j])).outside
  {
    var cs := Classes(ys, Thresholds(sqrt, p, xs));
    var near, inside, outside := NearMask(cs), InsideMask(cs), OutsideMask(cs);
    SelectAtIndices(xs, near);
    SelectAtIndices(ys, near);
    IndicesSpec(near);
    SelectAtIndices(xs, inside);
    SelectAtIndices(ys, inside);
    IndicesSpec(inside);
    SelectAtIndices(xs, outside);
    SelectAtIndices(ys, outside);
    IndicesSpec(outside);
  }

  /** Every original point shows up in at least one of the three lists, and no
      point is in both the inside and the outside list. */
  lemma SplitCovers(sqrt: real -> real, p: Params, xs: seq<real>, ys: seq<real>, j: nat)
    requires IsSqrt(sqrt) && 0.0 < p.ex && |xs| == |ys| && j < |xs|
    ensures var cs := Classes(ys, Thresholds(sqrt, p, xs));
      j in Indices(NearMask(cs)) || j in Indices(InsideMask(cs)) || j in Indices(OutsideMask(cs))
    ensures var cs := Classes(ys, Thresholds(sqrt, p, xs));
      !(j in Indices(InsideMask(cs)) && j in Indices(OutsideMask(cs)))
  {
    var cs := Classes(ys, Thresholds(sqrt, p, xs));
    ClassifyCover(ys[j], Threshold(sqrt, p, xs[j]));
    IndicesSpec(NearMask(cs));
    IndicesSpec(InsideMask(cs));
    IndicesSpec(OutsideMask(cs));
  }
}
