/** Drift compensation of a relative series: a straight line is fitted by least squares
    to the points (i, y[i]), i = 0..N-1 (the design matrix has the columns xi = 0..N-1
    and a column of ones), and subtracted from the series.
    The fit is written with the closed-form solution of the normal equations over exact
    reals. For N == 1 the design matrix has rank one and lstsq returns its minimum-norm
    solution, slope 0 and intercept y[0]. */
module Drift {
  import opened Basics

  /** Slope `w[0]` and intercept `w[1]` of a fitted line. */
  datatype Line = Line(slope: real, intercept: real)

  /** The sum of i * s[i] over the indices 0..|s|-1, i.e. the dot product xi . s.
      Dropping the first element moves every other one down by one index, which
      takes one copy of each away. */
  function Moment(s: seq<real>): real
  {
    if |s| == 0 then 0.0 else Moment(s[1..]) + Sum(s[1..])
  }

  /** The sum of the indices 0..n-1 (the entry sum(xi) of the normal matrix A^T A). */
  function IndexSum(n: nat): real
  {
    if n == 0 then 0.0 else IndexSum(n - 1) + (n - 1) as real
  }

  /** The sum of the squared indices 0..n-1 (the entry xi . xi of A^T A). */
  function IndexSquareSum(n: nat): real
  {
    if n == 0 then 0.0 else IndexSquareSum(n - 1) + (n - 1) as real * (n - 1) as real
  }

  /** The solution of the normal equations
        a * sxx + b * sx = sxy
        a * sx  + b * n  = sy
      by elimination. */
  function Solve(n: real, sx: real, sxx: real, sy: real, sxy: real): Line
    requires n > 0.0 && n * sxx - sx * sx != 0.0
  {
    var a := (n * sxy - sx * sy) / (n * sxx - sx * sx);
    Line(a, (sy - a * sx) / n)
  }

  /** The least-squares line through the points (i, y[i]). */
  function Fit(y: seq<real>): Line
    requires |y| >= 1
  {
    var n := |y|;
    if n == 1 then Line(0.0, y[0])
    else
      DeterminantPositive(n);
      Solve(n as real, IndexSum(n), IndexSquareSum(n), Sum(y), Moment(y))
  }

  /** The line `w[0] * xi + w[1]` at the indices 0..n-1, built by stepping along it: the
      value at index 0 is the intercept, and the rest is the same line moved one index on.
      LineValueAt gives the value at every index. */
  function LineValues(n: nat, w: Line): (r: seq<real>)
    ensures |r| == n
  {
    if n == 0 then [] else [w.intercept] + LineValues(n - 1, Line(w.slope, w.slope + w.intercept))
  }

  /** `y - drift`: each value minus the line at its index. */
  function Detrend(y: seq<real>, w: Line): (r: seq<real>)
    ensures |r| == |y|
  {
    seq(|y|, i requires 0 <= i < |y| => y[i] - LineValues(|y|, w)[i])
  }

  /** The drift-compensated series. Its residuals balance in both normal equations:
      they sum to zero and are orthogonal to the index vector. Each value is the
      series' value minus the fitted line at its index (`RemoveDriftAt`). */
  function RemoveDrift(y: seq<real>): (r: seq<real>)
    requires |y| >= 1
    ensures |r| == |y|
    ensures Sum(r) == 0.0 && Moment(r) == 0.0
  {
    FitSolvesNormalEquations(y);
    Detrend(y, Fit(y))
  }

  /** The drift-compensated series is the series with the least-squares line taken away:
      `y[i] - (w[0] * i + w[1])` at every index i, where `w` is the fit. */
  lemma RemoveDriftAt(y: seq<real>)
    requires |y| >= 1
    ensures LineRemoved(y, Fit(y), RemoveDrift(y))
  {
    DetrendAt(y, Fit(y));
  }

  /** `r` is `y` with the line `w[0] * i + w[1]` taken away at every index i. */
  predicate LineRemoved(y: seq<real>, w: Line, r: seq<real>)
  {
    |r| == |y| && forall i :: 0 <= i < |y| ==> r[i] == y[i] - (w.slope * i as real + w.intercept)
  }

  /** Subtracting a line's values takes the line away at every index. */
  lemma DetrendAt(y: seq<real>, w: Line)
    ensures LineRemoved(y, w, Detrend(y, w))
  {
    forall i | 0 <= i < |y|
      ensures Detrend(y, w)[i] == y[i] - (w.slope * i as real + w.intercept)
    {
      LineValueAt(|y|, w, i);
    }
  }

  /** The moment weighs every element by its index: appending x at index |s| adds |s| * x. */
  lemma {:induction false} MomentAppend(s: seq<real>, x: real)
    ensures Moment(s + [x]) == Moment(s) + |s| as real * x
    decreases |s|
  {
    if |s| == 0 {
      assert ([] + [x])[1..] == [];
    } else {
      var t := s[1..];
      assert (s + [x])[1..] == t + [x];
      MomentAppend(t, x);
      SumAppend(t, [x]);
      var k := |t| as real;
      AppendStep(Moment(t), Sum(t), k, x);
    }
  }

  lemma AppendStep(m: real, s: real, k: real, x: real)
    ensures (m + k * x) + (s + x) == (m + s) + (k + 1.0) * x
  {
  }

  /** Gauss's formula: 2 * (0 + 1 + ... + (n-1)) == n * (n-1). */
  lemma {:induction false} IndexSumClosed(n: nat)
    ensures 2.0 * IndexSum(n) == n as real * (n as real - 1.0)
  {
    if n > 0 {
      IndexSumClosed(n - 1);
      var k := (n - 1) as real;
      assert (k + 1.0) * k == k * (k - 1.0) + 2.0 * k;
    }
  }

  /** 6 * (0^2 + 1^2 + ... + (n-1)^2) == (n-1) * n * (2n-1). */
  lemma {:induction false} IndexSquareSumClosed(n: nat)
    ensures 6.0 * IndexSquareSum(n) == (n as real - 1.0) * n as real * (2.0 * n as real - 1.0)
  {
    if n > 0 {
      IndexSquareSumClosed(n - 1);
      var k := (n - 1) as real;
      assert k * (k + 1.0) * (2.0 * k + 1.0) == (k - 1.0) * k * (2.0 * k - 1.0) + 6.0 * (k * k);
    }
  }

  /** The next square is the previous one plus twice the index sum plus the index:
      (n-1)^2 == 2 * (0 + ... + (n-2)) + (n-1). */
  lemma IndexSquareStep(n: nat)
    requires n > 0
    ensures IndexSquareSum(n) == IndexSquareSum(n - 1) + 2.0 * IndexSum(n - 1) + (n - 1) as real
  {
    IndexSumClosed(n - 1);
    var k := (n - 1) as real;
    assert k * k == k * (k - 1.0) + k;
  }

  lemma DeterminantPolynomial(n: real, t: real, q: real)
    requires n >= 2.0 && 2.0 * t == n * (n - 1.0) && 6.0 * q == (n - 1.0) * n * (2.0 * n - 1.0)
    ensures n * q - t * t > 0.0
  {
    assert 12.0 * (n * q - t * t) == (n * n) * ((n - 1.0) * (n + 1.0));
    assert n * n > 0.0;
    assert (n - 1.0) * (n + 1.0) > 0.0;
  }

  /** With two or more points the normal equations have a unique solution. */
  lemma DeterminantPositive(n: nat)
    requires n >= 2
    ensures n as real * IndexSquareSum(n) - IndexSum(n) * IndexSum(n) > 0.0
  {
    IndexSumClosed(n);
    IndexSquareSumClosed(n);
    DeterminantPolynomial(n as real, IndexSum(n), IndexSquareSum(n));
  }

  /** The sum is linear: a pointwise difference has the difference of the sums. */
  lemma {:induction false} SumSub(u: seq<real>, v: seq<real>, r: seq<real>)
    requires |u| == |v| == |r|
    requires forall i :: 0 <= i < |r| ==> r[i] == u[i] - v[i]
    ensures Sum(r) == Sum(u) - Sum(v)
    decreases |r|
  {
    if |r| > 0 {
      SumSub(u[1..], v[1..], r[1..]);
    }
  }

  /** So is the moment. */
  lemma {:induction false} MomentSub(u: seq<real>, v: seq<real>, r: seq<real>)
    requires |u| == |v| == |r|
    requires forall i :: 0 <= i < |r| ==> r[i] == u[i] - v[i]
    ensures Moment(r) == Moment(u) - Moment(v)
    decreases |r|
  {
    if |r| > 0 {
      MomentSub(u[1..], v[1..], r[1..]);
      SumSub(u[1..], v[1..], r[1..]);
    }
  }

  /** The value at index i is `w[0] * i + w[1]`. */
  lemma {:induction false} LineValueAt(n: nat, w: Line, i: nat)
    requires i < n
    ensures LineValues(n, w)[i] == w.slope * i as real + w.intercept
    decreases i
  {
    if i > 0 {
      var w' := Line(w.slope, w.slope + w.intercept);
      LineValueAt(n - 1, w', i - 1);
      ShiftPoint(w.slope, w.intercept, (i - 1) as real);
    }
  }

  lemma ShiftPoint(a: real, b: real, k: real)
    ensures a * (k + 1.0) + b == a * k + (a + b)
  {
  }

  /** The sum of the line values over the indices 0..n-1. */
  lemma {:induction false} LineSum(n: nat, w: Line)
    ensures Sum(LineValues(n, w)) == w.slope * IndexSum(n) + w.intercept * n as real
  {
    if n == 0 {
      ZeroCombination(w.slope, w.intercept, IndexSum(n), n as real);
    } else {
      var w' := Line(w.slope, w.slope + w.intercept);
      var l' := LineValues(n - 1, w');
      assert LineValues(n, w)[1..] == l';
      LineSum(n - 1, w');
      LineSumStep(w.slope, w'.slope, w.intercept, w'.intercept, (n - 1) as real, n as real,
                  IndexSum(n - 1), IndexSum(n), Sum(l'), Sum(LineValues(n, w)));
    }
  }

  lemma ZeroCombination(a: real, b: real, p: real, q: real)
    requires p == 0.0 && q == 0.0
    ensures a * p + b * q == 0.0
  {
  }

  lemma LineSumStep(a: real, a': real, b: real, b': real, k: real, kn: real, t: real, tn: real, s: real, total: real)
    requires a' == a && b' == a + b && kn == k + 1.0 && tn == t + k
    requires s == a' * t + b' * k && total == b + s
    ensures total == a * tn + b * kn
  {
  }

  /** The moment of the line values over the indices 0..n-1. */
  lemma {:induction false} LineMoment(n: nat, w: Line)
    ensures Moment(LineValues(n, w)) == w.slope * IndexSquareSum(n) + w.intercept * IndexSum(n)
  {
    if n == 0 {
      ZeroCombination(w.slope, w.intercept, IndexSquareSum(n), IndexSum(n));
    } else {
      LineMoment(n - 1, Line(w.slope, w.slope + w.intercept));
      LineMomentNext(n, w);
    }
  }

  lemma LineMomentNext(n: nat, w: Line)
    requires n > 0
    requires Moment(LineValues(n - 1, Line(w.slope, w.slope + w.intercept)))
          == w.slope * IndexSquareSum(n - 1) + (w.slope + w.intercept) * IndexSum(n - 1)
    ensures Moment(LineValues(n, w)) == w.slope * IndexSquareSum(n) + w.intercept * IndexSum(n)
  {
    var w' := Line(w.slope, w.slope + w.intercept);
    var l' := LineValues(n - 1, w');
    assert LineValues(n, w)[1..] == l';
    assert Moment(LineValues(n, w)) == Moment(l') + Sum(l');
    assert IndexSum(n) == IndexSum(n - 1) + (n - 1) as real;
    LineSum(n - 1, w');
    IndexSquareStep(n);
    LineMomentStep(w.slope, w'.slope, w.intercept, w'.intercept, (n - 1) as real, IndexSum(n - 1), IndexSum(n),
                   IndexSquareSum(n - 1), IndexSquareSum(n), Sum(l'), Moment(l'), Moment(LineValues(n, w)));
  }

  lemma LineMomentStep(a: real, a': real, b: real, b': real, k: real, t: real, tn: real, q: real, qn: real, s: real, m: real, total: real)
    requires a' == a && b' == a + b && tn == t + k && qn == q + 2.0 * t + k
    requires s == a' * t + b' * k && m == a' * q + b' * t && total == m + s
    ensures total == a * qn + b * tn
  {
  }

  /** The residuals are the series minus the line values, so their sum and their moment
      are the series' own minus the line's. */
  lemma {:induction false} DetrendSum(y: seq<real>, w: Line)
    ensures Sum(Detrend(y, w)) == Sum(y) - Sum(LineValues(|y|, w))
  {
    SumSub(y, LineValues(|y|, w), Detrend(y, w));
  }

  lemma {:induction false} DetrendMoment(y: seq<real>, w: Line)
    ensures Moment(Detrend(y, w)) == Moment(y) - Moment(LineValues(|y|, w))
  {
    MomentSub(y, LineValues(|y|, w), Detrend(y, w));
  }

  lemma NormalEquationsAlgebra(n: real, sx: real, sxx: real, sy: real, sxy: real, a: real, b: real)
    requires n > 0.0 && n * sxx - sx * sx != 0.0
    ensures (sy - a * sx - b * n == 0.0 && sxy - a * sxx - b * sx == 0.0)
        <==> Line(a, b) == Solve(n, sx, sxx, sy, sxy)
  {
    var d := n * sxx - sx * sx;
    if sy - a * sx - b * n == 0.0 && sxy - a * sxx - b * sx == 0.0 {
      assert b * n == sy - a * sx;
      assert n * (sxy - a * sxx - b * sx) == n * sxy - a * n * sxx - (b * n) * sx;
      assert a * d == n * sxy - sx * sy;
    }
    if a == (n * sxy - sx * sy) / d && b == (sy - a * sx) / n {
      assert a * d == n * sxy - sx * sy;
      assert b * n == sy - a * sx;
      assert n * (sxy - a * sxx - b * sx) == n * sxy - a * n * sxx - (b * n) * sx;
    }
  }

  /** The fitted line is exactly the solution of the normal equations A^T A w = A^T y:
      for two or more points, a line's residuals sum to zero and are orthogonal to the
      index vector if and only if that line is the fit. */
  lemma {:induction false} NormalEquationsCharacterizeFit(y: seq<real>, w: Line)
    requires |y| >= 2
    ensures Sum(Detrend(y, w)) == 0.0 && Moment(Detrend(y, w)) == 0.0 <==> w == Fit(y)
  {
    DetrendSum(y, w);
    DetrendMoment(y, w);
    LineSum(|y|, w);
    LineMoment(|y|, w);
    DeterminantPositive(|y|);
    ResidualEquations(Sum(Detrend(y, w)), Moment(Detrend(y, w)), Sum(LineValues(|y|, w)), Moment(LineValues(|y|, w)),
                      |y| as real, IndexSum(|y|), IndexSquareSum(|y|), Sum(y), Moment(y), w.slope, w.intercept);
    assert w == Line(w.slope, w.intercept);
  }

  lemma ResidualEquations(sd: real, md: real, sl: real, ml: real, n: real, sx: real, sxx: real, sy: real, sxy: real, a: real, b: real)
    requires n > 0.0 && n * sxx - sx * sx > 0.0
    requires sd == sy - sl && md == sxy - ml
    requires sl == a * sx + b * n && ml == a * sxx + b * sx
    ensures sd == 0.0 && md == 0.0 <==> Line(a, b) == Solve(n, sx, sxx, sy, sxy)
  {
    NormalEquationsAlgebra(n, sx, sxx, sy, sxy, a, b);
  }

  /** The residuals of the fit satisfy both normal equations, for every N >= 1. */
  lemma {:induction false} FitSolvesNormalEquations(y: seq<real>)
    requires |y| >= 1
    ensures Sum(Detrend(y, Fit(y))) == 0.0 && Moment(Detrend(y, Fit(y))) == 0.0
  {
    if |y| == 1 {
      var r := Detrend(y, Fit(y));
      assert LineValues(1, Fit(y)) == [y[0]];
      assert r == [0.0];
    } else {
      NormalEquationsCharacterizeFit(y, Fit(y));
    }
  }

  /** A series that is exactly a line has all its drift removed; with two or more points
      the fit recovers that line's slope and intercept. */
  lemma {:induction false} LinearSeriesRecovered(y: seq<real>, w: Line)
    requires |y| >= 1 && y == LineValues(|y|, w)
    ensures |y| >= 2 ==> Fit(y) == w
    ensures forall i :: 0 <= i < |y| ==> RemoveDrift(y)[i] == 0.0
  {
    var r := Detrend(y, w);
    assert forall i :: 0 <= i < |y| ==> r[i] == 0.0;
    if |y| >= 2 {
      ZeroSeries(r);
      NormalEquationsCharacterizeFit(y, w);
    } else {
      var z := RemoveDrift(y);
      assert z[0] == y[0] - LineValues(1, Fit(y))[0];
    }
  }

  lemma {:induction false} ZeroSeries(s: seq<real>)
    requires forall i :: 0 <= i < |s| ==> s[i] == 0.0
    ensures Sum(s) == 0.0 && Moment(s) == 0.0
    decreases |s|
  {
    if |s| > 0 {
      ZeroSeries(s[1..]);
    }
  }
}
