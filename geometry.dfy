/**
  The curve-to-point sampler of src/coordle/geometry.py: a fixed grid scan over
  `[xMin, xMax]` that keeps the smallest distance from a retained curve sample
  to the target point, skipping samples where the function raises or gives a
  complex or non-finite value, and answering `+inf` when nothing was retained.

  The host's `math.hypot` is a parameter; `IsHypot` says what it computes.
*/
module Geometry {
  import opened Wrappers

  /** A double as the host sees it: finite, an infinity, or not a number. */
  datatype Float = Finite(r: real) | PosInf | NegInf | NaN

  /** What one call `f(x)` produces. */
  datatype Sample = Raises | ComplexValue | FloatValue(v: Float)

  /** A distance, or the `float("inf")` sentinel. */
  datatype Distance = Fin(r: real) | Inf

  /** `a < b` on distances, with `Inf` above every finite value. */
  predicate Below(a: Distance, b: Distance)
  {
    match a
    case Inf => false
    case Fin(x) => b.Inf? || x < b.r
  }

  /** `min(a, b)`: the first argument unless the second is strictly smaller. */
  function Min(a: Distance, b: Distance): (m: Distance)
    ensures !Below(a, m) && !Below(b, m)
    ensures m == a || m == b
  {
    if Below(b, a) then b else a
  }

  /** The `ValueError` raised for too few samples. */
  datatype ValueError = TooFewSamples

  function ValueErrorMessage(e: ValueError): string
  {
    "n_samples must be at least 2"
  }

  /** The i-th grid point, `xMin + i*step` with `step = (xMax - xMin)/(n - 1)`. */
  function GridX(xMin: real, xMax: real, n: int, i: int): real
    requires n >= 2
  {
    xMin + (i as real) * ((xMax - xMin) / ((n - 1) as real))
  }

  /** A sample takes part in the minimum only if it is a finite real number. */
  predicate Retained(s: Sample)
  {
    s.FloatValue? && s.v.Finite?
  }

  /** The distance from the retained sample at `x` to `(x0, y0)`. */
  function SampleDistance(f: real -> Sample, hypot: (real, real) -> real, x0: real, y0: real, x: real): real
    requires Retained(f(x))
  {
    hypot(x - x0, f(x).v.r - y0)
  }

  /**
    `m` is what the scan answers: `Inf` exactly when no grid sample is
    retained, no larger than the distance of any retained sample, and equal
    to the distance of some retained sample.
  */
  ghost predicate IsMinDistance(f: real -> Sample, hypot: (real, real) -> real, point: (real, real),
                                xMin: real, xMax: real, n: int, m: Distance)
    requires n >= 2
  {
    (m.Inf? <==> forall i :: 0 <= i < n ==> !Retained(f(GridX(xMin, xMax, n, i)))) &&
    (forall i :: 0 <= i < n && Retained(f(GridX(xMin, xMax, n, i))) ==>
       !Below(Fin(SampleDistance(f, hypot, point.0, point.1, GridX(xMin, xMax, n, i))), m)) &&
    (m.Fin? ==> exists i :: (0 <= i < n && Retained(f(GridX(xMin, xMax, n, i))) &&
                             SampleDistance(f, hypot, point.0, point.1, GridX(xMin, xMax, n, i)) == m.r))
  }

  method MinDistanceCurveToPoint(f: real -> Sample, hypot: (real, real) -> real, point: (real, real),
                                 xMin: real, xMax: real, nSamples: int)
    returns (r: Result<Distance, ValueError>)
    ensures r.Failure? <==> nSamples < 2
    ensures r.Success? ==> IsMinDistance(f, hypot, point, xMin, xMax, nSamples, r.value)
  {
    var (x0, y0) := point;
    if nSamples < 2 {
      return Failure(TooFewSamples);
    }
    var step := (xMax - xMin) / ((nSamples - 1) as real);
    var minDist := Inf;
    for i := 0 to nSamples
      invariant minDist.Inf? <==> forall j :: 0 <= j < i ==> !Retained(f(GridX(xMin, xMax, nSamples, j)))
      invariant forall j :: 0 <= j < i && Retained(f(GridX(xMin, xMax, nSamples, j))) ==>
                  !Below(Fin(SampleDistance(f, hypot, x0, y0, GridX(xMin, xMax, nSamples, j))), minDist)
      invariant minDist.Fin? ==> exists j :: (0 <= j < i && Retained(f(GridX(xMin, xMax, nSamples, j))) &&
                                              SampleDistance(f, hypot, x0, y0, GridX(xMin, xMax, nSamples, j)) == minDist.r)
    {
      var x := xMin + (i as real) * step;
      assert x == GridX(xMin, xMax, nSamples, i);
      var y := f(x);
      if y.Raises? {
        continue;
      }
      if y.ComplexValue? {
        continue;
      }
      if !y.v.Finite? {
        continue;
      }
      var dx := x - x0;
      var dy := y.v.r - y0;
      var dist := hypot(dx, dy);
      if Below(Fin(dist), minDist) {
        minDist := Fin(dist);
      }
    }
    return Success(minDist);
  }

  // ---------------------------------------------------------------------------
  // Properties of the grid and of the answer
  // ---------------------------------------------------------------------------

  /** The first grid point is `xMin` and the last is `xMax`. */
  lemma GridEndpoints(xMin: real, xMax: real, n: int)
    requires n >= 2
    ensures GridX(xMin, xMax, n, 0) == xMin
    ensures GridX(xMin, xMax, n, n - 1) == xMax
  {
    var d := (n - 1) as real;
    assert d * ((xMax - xMin) / d) == xMax - xMin;
  }

  /** Every grid point lies in the closed interval, and the grid is increasing. */
  lemma GridWithinBounds(xMin: real, xMax: real, n: int, i: int, j: int)
    requires n >= 2 && xMin <= xMax && 0 <= i <= j < n
    ensures xMin <= GridX(xMin, xMax, n, i) <= GridX(xMin, xMax, n, j) <= xMax
  {
    var step := (xMax - xMin) / ((n - 1) as real);
    assert step >= 0.0;
    assert (i as real) * step <= (j as real) * step by {
      assert ((j - i) as real) * step >= 0.0;
    }
    assert (j as real) * step <= ((n - 1) as real) * step by {
      assert ((n - 1 - j) as real) * step >= 0.0;
    }
    GridEndpoints(xMin, xMax, n);
  }

  /** The answer is determined: two values that both satisfy the description are equal. */
  lemma MinDistanceUnique(f: real -> Sample, hypot: (real, real) -> real, point: (real, real),
                          xMin: real, xMax: real, n: int, m1: Distance, m2: Distance)
    requires n >= 2
    requires IsMinDistance(f, hypot, point, xMin, xMax, n, m1)
    requires IsMinDistance(f, hypot, point, xMin, xMax, n, m2)
    ensures m1 == m2
  {
    if m1.Fin? && m2.Fin? {
      var i :| 0 <= i < n && Retained(f(GridX(xMin, xMax, n, i))) &&
               SampleDistance(f, hypot, point.0, point.1, GridX(xMin, xMax, n, i)) == m1.r;
      var j :| 0 <= j < n && Retained(f(GridX(xMin, xMax, n, j))) &&
               SampleDistance(f, hypot, point.0, point.1, GridX(xMin, xMax, n, j)) == m2.r;
      assert !Below(Fin(m1.r), m2) && !Below(Fin(m2.r), m1);
    }
  }

  /** A function that fails at every grid point yields `+inf`. */
  lemma AllFailingGivesInfinity(f: real -> Sample, hypot: (real, real) -> real, point: (real, real),
                                xMin: real, xMax: real, n: int, m: Distance)
    requires n >= 2
    requires forall i :: 0 <= i < n ==> f(GridX(xMin, xMax, n, i)).Raises?
    requires IsMinDistance(f, hypot, point, xMin, xMax, n, m)
    ensures m == Inf
  {
  }

  /** `hypot(a, b)`: the non-negative square root of `a*a + b*b`. */
  ghost predicate IsHypot(hypot: (real, real) -> real)
  {
    forall a, b :: 0.0 <= hypot(a, b) && hypot(a, b) * hypot(a, b) == a * a + b * b
  }

  /** With the real `hypot`, a finite answer is a non-negative distance. */
  lemma MinDistanceNonNegative(f: real -> Sample, hypot: (real, real) -> real, point: (real, real),
                               xMin: real, xMax: real, n: int, m: Distance)
    requires n >= 2 && IsHypot(hypot)
    requires IsMinDistance(f, hypot, point, xMin, xMax, n, m)
    ensures m.Fin? ==> m.r >= 0.0
  {
    if m.Fin? {
      var i :| 0 <= i < n && Retained(f(GridX(xMin, xMax, n, i))) &&
               SampleDistance(f, hypot, point.0, point.1, GridX(xMin, xMax, n, i)) == m.r;
    }
  }

  /** Two non-negative numbers with the same square are equal. */
  lemma SquareRootUnique(p: real, q: real)
    requires 0.0 <= p && 0.0 <= q && p * p == q * q
    ensures p == q
  {
    assert (q - p) * (q + p) == q * q - p * p == 0.0;
    if p + q > 0.0 {
      assert q - p == ((q - p) * (q + p)) / (q + p);
    }
  }

  /** On an axis `hypot` is the absolute value. */
  lemma HypotOnAxis(hypot: (real, real) -> real, a: real)
    requires IsHypot(hypot)
    ensures hypot(a, 0.0) == if a < 0.0 then -a else a
  {
    var abs := if a < 0.0 then -a else a;
    assert abs * abs == a * a + 0.0 * 0.0;
    SquareRootUnique(hypot(a, 0.0), abs);
  }
}
