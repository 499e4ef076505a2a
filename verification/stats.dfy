/**
 * Population mean, variance and z-scores: `getStandardDeviation` and the
 * mean/z-score steps of the standardised metrics.
 */
module Stats {

  /**
   * `s.reduce((a, b) => a + b, 0)`; on a non-empty array this is also what
   * `s.reduce((a, b) => a + b)` gives (on an empty one that call throws).
   */
  function Sum(s: seq<real>): real
  {
    if |s| == 0 then 0.0 else s[0] + Sum(s[1..])
  }

  /** The population mean: n copies of it add up to the sum. */
  function Mean(s: seq<real>): (m: real)
    requires |s| > 0
    ensures (|s| as real) * m == Sum(s)
  {
    Sum(s) / (|s| as real)
  }

  /**
   * `s.map((x) => Math.pow(x - m, 2)).reduce((a, b) => a + b)`: the sum of
   * squared deviations from `m`, with the map and the reduce fused.
   */
  function SumOfSquares(s: seq<real>, m: real): real
  {
    if |s| == 0 then 0.0 else (s[0] - m) * (s[0] - m) + SumOfSquares(s[1..], m)
  }

  /** The population variance (divisor n, not n - 1); never negative. */
  function Variance(s: seq<real>): (v: real)
    requires |s| > 0
    ensures v >= 0.0
  {
    SumOfSquaresNonNegative(s, Mean(s));
    SumOfSquares(s, Mean(s)) / (|s| as real)
  }

  /**
   * `sd` is what `getStandardDeviation(s)` returns: the non-negative square
   * root of the population variance.
   */
  predicate IsStdev(sd: real, s: seq<real>)
    requires |s| > 0
  {
    sd >= 0.0 && sd * sd == Variance(s)
  }

  /** `s.map((x) => (x - m) / sd)`. */
  function ZScores(s: seq<real>, m: real, sd: real): (z: seq<real>)
    requires sd != 0.0
    ensures |z| == |s|
  {
    seq(|s|, i requires 0 <= i < |s| => (s[i] - m) / sd)
  }

  /** Each `z[i]`, scaled by `sd` and shifted by `m`, gives back `x[i]`. */
  predicate ScalesBack(z: seq<real>, x: seq<real>, m: real, sd: real)
  {
    |z| == |x| && forall i :: 0 <= i < |x| ==> z[i] * sd + m == x[i]
  }

  /** A z-score maps back to its value: `z * sd + m == x`. */
  lemma ZScoresRoundTrip(s: seq<real>, m: real, sd: real)
    requires sd != 0.0
    ensures ScalesBack(ZScores(s, m, sd), s, m, sd)
  {
    forall i | 0 <= i < |s|
      ensures ZScores(s, m, sd)[i] * sd + m == s[i]
    {
      DivideThenScale(s[i] - m, sd);
    }
  }

  lemma {:induction false} SumOfSquaresNonNegative(s: seq<real>, m: real)
    ensures SumOfSquares(s, m) >= 0.0
  {
    if |s| > 0 {
      SumOfSquaresNonNegative(s[1..], m);
      SquareNonNegative(s[0] - m);
    }
  }

  lemma SquareNonNegative(a: real)
    ensures a * a >= 0.0
  {
    if a < 0.0 {
      assert a * a == (-a) * (-a);
    }
  }

  /** Terms that scale back to `x[i] - m` sum to a total that scales back to `Sum(x) - n * m`. */
  lemma {:induction false} SumScaledBack(x: seq<real>, z: seq<real>, m: real, sd: real)
    requires ScalesBack(z, x, m, sd)
    ensures Sum(z) * sd == Sum(x) - (|x| as real) * m
  {
    if |x| > 0 {
      assert z[0] * sd + m == x[0];
      assert Sum(z[1..]) * sd == Sum(x[1..]) - (|x[1..]| as real) * m by {
        assert ScalesBack(z[1..], x[1..], m, sd);
        SumScaledBack(x[1..], z[1..], m, sd);
      }
      SumStep(z[0], Sum(z[1..]), sd, Sum(x[1..]), x[0], m, |x[1..]| as real);
    }
  }

  /**
   * Terms that scale back to `x[i] - m` have squares summing to the squared
   * deviations of `x` from `m`, times `k = 1 / sd²`.
   */
  lemma {:induction false} SumOfSquaresScaledBack(x: seq<real>, z: seq<real>, m: real, sd: real, k: real)
    requires ScalesBack(z, x, m, sd) && k * (sd * sd) == 1.0
    ensures SumOfSquares(z, 0.0) == SumOfSquares(x, m) * k
  {
    if |x| > 0 {
      assert z[0] * sd + m == x[0];
      assert SumOfSquares(z[1..], 0.0) == SumOfSquares(x[1..], m) * k by {
        assert ScalesBack(z[1..], x[1..], m, sd);
        SumOfSquaresScaledBack(x[1..], z[1..], m, sd, k);
      }
      SquareStep(z[0], SumOfSquares(z[1..], 0.0), sd, SumOfSquares(x[1..], m), x[0], m, k);
    }
  }

  /** Z-scores about the true mean, for any non-zero divisor, sum to zero, so their mean is zero. */
  lemma ZScoresSumToZero(s: seq<real>, sd: real)
    requires |s| > 0 && sd != 0.0
    ensures Sum(ZScores(s, Mean(s), sd)) == 0.0
    ensures Mean(ZScores(s, Mean(s), sd)) == 0.0
  {
    var m := Mean(s);
    var z := ZScores(s, m, sd);
    ZScoresRoundTrip(s, m, sd);
    SumScaledBack(s, z, m, sd);
    CountTimesMean(Sum(s), |s| as real, m);
    ZeroProduct(Sum(z), sd);
  }

  /**
   * Dividing by the population standard deviation gives z-scores whose
   * population variance is one.
   */
  lemma ZScoresUnitVariance(s: seq<real>, sd: real)
    requires |s| > 0 && sd > 0.0 && IsStdev(sd, s)
    ensures Variance(ZScores(s, Mean(s), sd)) == 1.0
  {
    var m := Mean(s);
    var z := ZScores(s, m, sd);
    var k := 1.0 / (sd * sd);
    assert k * (sd * sd) == 1.0;
    ZScoresSumToZero(s, sd);
    ZScoresRoundTrip(s, m, sd);
    SumOfSquaresScaledBack(s, z, m, sd, k);
    assert SumOfSquares(z, Mean(z)) == SumOfSquares(s, m) * k;
    Rescaled(SumOfSquares(s, m), SumOfSquares(z, Mean(z)), Variance(z), |s| as real, sd, k);
  }

  // Steps of real arithmetic, each stated over plain numbers.

  lemma DivideThenScale(a: real, sd: real)
    requires sd != 0.0
    ensures (a / sd) * sd == a
  {
  }

  lemma SumStep(z0: real, zs: real, sd: real, xs: real, x0: real, m: real, n: real)
    requires z0 * sd + m == x0 && zs * sd == xs - n * m
    ensures (z0 + zs) * sd == (x0 + xs) - (n + 1.0) * m
  {
  }

  lemma SquareStep(z0: real, zs: real, sd: real, xs: real, x0: real, m: real, k: real)
    requires z0 * sd + m == x0 && k * (sd * sd) == 1.0 && zs == xs * k
    ensures (z0 - 0.0) * (z0 - 0.0) + zs == ((x0 - m) * (x0 - m) + xs) * k
  {
    assert (x0 - m) * (x0 - m) == (z0 * z0) * (sd * sd);
    assert (z0 * z0) * (sd * sd) * k == z0 * z0;
  }

  lemma ZeroProduct(a: real, sd: real)
    requires sd != 0.0 && a * sd == 0.0
    ensures a == 0.0
  {
  }

  lemma CountTimesMean(total: real, n: real, mean: real)
    requires n > 0.0 && mean == total / n
    ensures total - n * mean == 0.0
  {
  }

  lemma Rescaled(sx: real, sz: real, vz: real, n: real, sd: real, k: real)
    requires n > 0.0 && k * (sd * sd) == 1.0
    requires sz == sx * k && sd * sd == sx / n && vz == sz / n
    ensures vz == 1.0
  {
    assert sx == n * (sd * sd);
    assert sz == n * ((sd * sd) * k);
  }

  /** Raw ratios 10 and 20: mean 15, population deviation 5, z-scores -1 and +1. */
  lemma TwoValueExample()
    ensures Mean([10.0, 20.0]) == 15.0
    ensures Variance([10.0, 20.0]) == 25.0
    ensures IsStdev(5.0, [10.0, 20.0])
    ensures ZScores([10.0, 20.0], 15.0, 5.0) == [-1.0, 1.0]
  {
    var s := [10.0, 20.0];
    assert Sum(s) == 30.0 by {
      assert s[1..] == [20.0];
      assert s[1..][1..] == [];
    }
    assert SumOfSquares(s, 15.0) == 50.0 by {
      assert s[1..] == [20.0];
      assert s[1..][1..] == [];
    }
  }
}
