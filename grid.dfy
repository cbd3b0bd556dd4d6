/** The two numpy routines the ensemble code relies on: evenly spaced grids and
    piecewise-linear interpolation. */
module Grid {

  predicate StrictlyIncreasing(t: seq<real>) {
    forall i :: 0 < i < |t| ==> t[i - 1] < t[i]
  }

  /** `np.linspace(lo, hi, n)`: n evenly spaced points from lo to hi, both included. */
  function Linspace(lo: real, hi: real, n: nat): (xs: seq<real>)
    ensures |xs| == n
    ensures n >= 1 ==> xs[0] == lo
    ensures n >= 2 ==> xs[n - 1] == hi
  {
    var xs := seq(n, i requires 0 <= i < n => Point(lo, hi, n, i));
    assert n >= 2 ==> xs[n - 1] == hi by {
      if n >= 2 {
        CancelFactor(hi - lo, (n - 1) as real);
        assert xs[n - 1] == lo + ((n - 1) as real) * Step(lo, hi, n);
      }
    }
    xs
  }

  /** Point i of `np.linspace(lo, hi, n)`: lo plus i steps of (hi - lo)/(n - 1). */
  function Point(lo: real, hi: real, n: nat, i: nat): real {
    if n == 1 then lo else lo + (i as real) * Step(lo, hi, n)
  }

  function Step(lo: real, hi: real, n: nat): real
    requires n != 1
  {
    (hi - lo) / ((n - 1) as real)
  }

  lemma CancelFactor(d: real, m: real)
    requires m != 0.0
    ensures m * (d / m) == d
  {
  }

  /** Consecutive points of `np.linspace` are one step (hi - lo)/(n - 1) apart. */
  lemma LinspaceEvenlySpaced(lo: real, hi: real, n: nat, i: nat)
    requires 0 < i < n
    ensures Linspace(lo, hi, n)[i] - Linspace(lo, hi, n)[i - 1] == (hi - lo) / ((n - 1) as real)
  {
    var xs := Linspace(lo, hi, n);
    var s := Step(lo, hi, n);
    assert xs[i] == lo + (i as real) * s && xs[i - 1] == lo + ((i - 1) as real) * s;
    assert (i as real) * s == ((i - 1) as real) * s + s;
  }

  lemma DivBounds(a: real, d: real)
    requires 0.0 <= a < d
    ensures 0.0 <= a / d < 1.0
  {
  }

  /** The straight line through (x0, y0) and (x1, y1), evaluated at x. */
  function Line(x0: real, x1: real, y0: real, y1: real, x: real): real
    requires x0 != x1
  {
    (y1 - y0) / (x1 - x0) * (x - x0) + y0
  }

  /** `np.interp(x, xp, fp)` for one query point: fp[0] left of the samples, the
      last fp at or right of the last sample, and on [xp[j], xp[j+1]) the straight
      line through the two neighbouring samples. */
  function Interp(x: real, xp: seq<real>, fp: seq<real>): (y: real)
    requires |xp| == |fp| > 0
    ensures x < xp[0] ==> y == fp[0]
    decreases |xp|
  {
    if |xp| == 1 || x < xp[0] then fp[0]
    else if x < xp[1] then Line(xp[0], xp[1], fp[0], fp[1], x)
    else Interp(x, xp[1..], fp[1..])
  }

  /** `np.interp(grid, xp, fp)`: one interpolated value per grid point. */
  function Resample(grid: seq<real>, xp: seq<real>, fp: seq<real>): (ys: seq<real>)
    requires |xp| == |fp| > 0
    ensures |ys| == |grid|
    ensures forall c :: 0 <= c < |grid| ==> ys[c] == Interp(grid[c], xp, fp)
  {
    seq(|grid|, c requires 0 <= c < |grid| => Interp(grid[c], xp, fp))
  }

  /** Between two consecutive samples the interpolant is the straight line through them. */
  lemma {:induction false} InterpOnSegment(x: real, xp: seq<real>, fp: seq<real>, j: nat)
    requires |xp| == |fp| && j + 1 < |xp|
    requires StrictlyIncreasing(xp)
    requires xp[j] <= x < xp[j + 1]
    ensures Interp(x, xp, fp) == Line(xp[j], xp[j + 1], fp[j], fp[j + 1], x)
    decreases j
  {
    if j > 0 {
      assert xp[0] < xp[1] <= xp[j] by { IncreasingFromSecond(xp, j); }
      InterpOnSegment(x, xp[1..], fp[1..], j - 1);
    }
  }

  /** At or beyond every sample time the interpolant holds the last sample value. */
  lemma {:induction false} InterpHoldsLast(x: real, xp: seq<real>, fp: seq<real>)
    requires |xp| == |fp| > 0
    requires forall i :: 0 <= i < |xp| ==> xp[i] <= x
    ensures Interp(x, xp, fp) == fp[|fp| - 1]
    decreases |xp|
  {
    if |xp| > 1 {
      assert xp[1] <= x;
      InterpHoldsLast(x, xp[1..], fp[1..]);
    }
  }

  /** On strictly increasing sample times the interpolant passes through every sample. */
  lemma {:induction false} InterpAtSample(xp: seq<real>, fp: seq<real>, k: nat)
    requires |xp| == |fp| > 0 && k < |xp|
    requires StrictlyIncreasing(xp)
    ensures Interp(xp[k], xp, fp) == fp[k]
    decreases |xp|
  {
    if k > 0 {
      assert xp[0] < xp[1] <= xp[k] by { IncreasingFromSecond(xp, k); }
      InterpAtSample(xp[1..], fp[1..], k - 1);
    }
  }

  lemma {:induction false} IncreasingFromSecond(xp: seq<real>, k: nat)
    requires StrictlyIncreasing(xp) && 0 < k < |xp|
    ensures xp[0] < xp[1] <= xp[k]
    decreases k
  {
    if k > 1 {
      IncreasingFromSecond(xp, k - 1);
    }
  }

  lemma MulNonNegative(a: real, b: real)
    requires a >= 0.0 && b >= 0.0
    ensures a * b >= 0.0
  {
  }

  /** The straight line between two samples stays between their values. */
  lemma SegmentBetween(x0: real, x1: real, y0: real, y1: real, x: real, lo: real, hi: real)
    requires x0 <= x < x1
    requires lo <= y0 <= hi && lo <= y1 <= hi
    ensures lo <= Line(x0, x1, y0, y1, x) <= hi
  {
    var d := x1 - x0;
    var w := (x - x0) / d;
    DivBounds(x - x0, d);
    assert (y1 - y0) / d * (x - x0) == (y1 - y0) * w;
    assert (y1 - y0) * w + y0 == (1.0 - w) * y0 + w * y1;
    MulNonNegative(1.0 - w, y0 - lo);
    MulNonNegative(1.0 - w, hi - y0);
    MulNonNegative(w, y1 - lo);
    MulNonNegative(w, hi - y1);
    assert (1.0 - w) * y0 + w * y1 - lo == (1.0 - w) * (y0 - lo) + w * (y1 - lo);
    assert hi - ((1.0 - w) * y0 + w * y1) == (1.0 - w) * (hi - y0) + w * (hi - y1);
  }

  /** Interpolation never leaves the range of the sampled values. */
  lemma {:induction false} InterpBetween(x: real, xp: seq<real>, fp: seq<real>, lo: real, hi: real)
    requires |xp| == |fp| > 0
    requires forall i :: 0 <= i < |fp| ==> lo <= fp[i] <= hi
    ensures lo <= Interp(x, xp, fp) <= hi
    decreases |xp|
  {
    if |xp| == 1 || x < xp[0] {
    } else if x < xp[1] {
      SegmentBetween(xp[0], xp[1], fp[0], fp[1], x, lo, hi);
    } else {
      InterpBetween(x, xp[1..], fp[1..], lo, hi);
    }
  }
}
