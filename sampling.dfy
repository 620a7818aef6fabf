/** Evenly spaced sample grids, as np.linspace(start, stop, n) builds them:
    n points from start to stop inclusive, a single point `start` when n == 1,
    none when n == 0. */
module Sampling {

  /** The i-th point of np.linspace(start, stop, n). */
  function Linspace(start: real, stop: real, n: nat, i: nat): (x: real)
    ensures i == 0 || n <= 1 ==> x == start
    ensures 2 <= n && i == n - 1 ==> x == stop
  {
    if n <= 1 then start
    else
      var step := (stop - start) / ((n - 1) as real);
      assert ((n - 1) as real) * step == stop - start;
      start + (i as real) * step
  }

  /** The whole grid np.linspace(start, stop, n). */
  function Grid(start: real, stop: real, n: nat): (g: seq<real>)
    ensures |g| == n
  {
    seq(n, i requires 0 <= i < n => Linspace(start, stop, n, i))
  }

  /** np.linspace(start, stop, n), filled into a new array. */
  method LinspaceArray(start: real, stop: real, n: nat) returns (a: array<real>)
    ensures fresh(a) && a[..] == Grid(start, stop, n)
  {
    a := new real[n];
    var i := 0;
    while i < n
      invariant 0 <= i <= n
      invariant forall k :: 0 <= k < i ==> a[k] == Linspace(start, stop, n, k)
    {
      a[i] := Linspace(start, stop, n, i);
      i := i + 1;
    }
  }

  /** The grid starts at `start` and, with two or more points, ends exactly at `stop`. */
  lemma GridEnds(start: real, stop: real, n: nat)
    ensures n >= 1 ==> Grid(start, stop, n)[0] == start
    ensures n >= 2 ==> Grid(start, stop, n)[n - 1] == stop
  {
    if n >= 2 {
      var step := (stop - start) / ((n - 1) as real);
      assert ((n - 1) as real) * step == stop - start;
    }
  }

  /** An increasing grid is sorted and stays within [start, stop]. */
  lemma {:induction false} GridSorted(start: real, stop: real, n: nat, i: nat, j: nat)
    requires start <= stop && i <= j < n
    ensures start <= Linspace(start, stop, n, i) <= Linspace(start, stop, n, j) <= stop
  {
    if n >= 2 {
      var step := (stop - start) / ((n - 1) as real);
      var li, lj := Linspace(start, stop, n, i), Linspace(start, stop, n, j);
      ScaleLe(i as real, j as real, step);
      ScaleLe(j as real, (n - 1) as real, step);
      assert start <= li <= lj;
      assert lj <= Linspace(start, stop, n, n - 1) == stop;
    }
  }

  /** Scaling by a non-negative step keeps non-negative values in order. */
  lemma ScaleLe(a: real, b: real, step: real)
    requires 0.0 <= a <= b
    ensures 0.0 <= step ==> 0.0 <= a * step <= b * step
  {
    if 0.0 <= step {
      assert b * step - a * step == (b - a) * step;
    }
  }

  /** Points the same distance from either end are mirror images about the grid's centre. */
  lemma GridSymmetric(start: real, stop: real, n: nat, i: nat)
    requires 2 <= n && i < n
    ensures Linspace(start, stop, n, i) + Linspace(start, stop, n, n - 1 - i) == start + stop
  {
    var step := (stop - start) / ((n - 1) as real);
    var k := n - 1 - i;
    assert (i as real) + (k as real) == (n - 1) as real;
    assert ((n - 1) as real) * step == stop - start;
    var si, sk := (i as real) * step, (k as real) * step;
    assert si + sk == ((n - 1) as real) * step;
    assert Linspace(start, stop, n, i) == start + si;
    assert Linspace(start, stop, n, k) == start + sk;
  }
}
