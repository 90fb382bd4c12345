/** Window statistics behind the Bollinger Bands and the volume average:
    the `getAverage` and `getStdDev` helpers of the indicator engine, over
    exact reals, with the facts about them that the bands rely on. */
module Stats {

  /** Left-to-right sum, in the order `reduce((a, b) => a + b, 0)` adds. */
  function Sum(s: seq<real>): real
  {
    if |s| == 0 then 0.0 else Sum(s[..|s| - 1]) + s[|s| - 1]
  }

  /** `getAverage`: the arithmetic mean of a non-empty list. */
  function Average(s: seq<real>): real
    requires |s| > 0
  {
    Sum(s) / (|s| as real)
  }

  function Abs(x: real): real
  {
    if x < 0.0 then -x else x
  }

  /** `Math.pow(d, 2)`. */
  function Sq(d: real): real
  {
    d * d
  }

  /** The sum of the squared deviations of the elements of `s` from a
      centre `c`. */
  function SumSqDev(s: seq<real>, c: real): real
  {
    if |s| == 0 then 0.0 else SumSqDev(s[..|s| - 1], c) + Sq(s[|s| - 1] - c)
  }

  /** The variance `getStdDev` computes: squared deviations are taken from
      the absolute value of the mean it is given, divided by the length. */
  function VarianceAsWritten(s: seq<real>, mean: real): real
    requires |s| > 0
  {
    SumSqDev(s, Abs(mean)) / (|s| as real)
  }

  /** `getStdDev(arr, mean)`; `sqrt` stands for `Math.sqrt`. */
  function StdDev(s: seq<real>, mean: real, sqrt: real -> real): real
    requires |s| > 0
  {
    sqrt(VarianceAsWritten(s, mean))
  }

  /** The textbook population variance (divisor the length, not length - 1). */
  function Variance(s: seq<real>): real
    requires |s| > 0
  {
    SumSqDev(s, Average(s)) / (|s| as real)
  }

  /** What the model assumes of `Math.sqrt` on non-negative arguments. */
  ghost predicate IsSqrt(sqrt: real -> real)
  {
    forall x :: x >= 0.0 ==> sqrt(x) >= 0.0 && Sq(sqrt(x)) == x
  }

  /** A window whose elements are all equal. */
  ghost predicate Constant(s: seq<real>)
  {
    forall j :: 0 <= j < |s| ==> s[j] == s[0]
  }

  /** A square is never negative, and positive away from zero. */
  lemma Square(d: real)
    ensures Sq(d) >= 0.0
    ensures d != 0.0 ==> Sq(d) > 0.0
  {
    if d < 0.0 {
      var e := -d;
      calc {
        Sq(d);
      ==
        e * e;
      >
        0.0;
      }
    } else if d > 0.0 {
      calc {
        Sq(d);
      ==
        d * d;
      >
        0.0;
      }
    }
  }

  /** A square root is zero at zero and positive above it. */
  lemma SqrtSign(sqrt: real -> real, x: real)
    requires IsSqrt(sqrt) && x >= 0.0
    ensures sqrt(x) >= 0.0
    ensures x > 0.0 ==> sqrt(x) > 0.0
    ensures x == 0.0 ==> sqrt(x) == 0.0
  {
    Square(sqrt(x));
  }

  /** Squared deviations from the common value of a window sum to zero. */
  lemma {:induction false} SumSqDevOfEqual(s: seq<real>, c: real)
    requires forall j :: 0 <= j < |s| ==> s[j] == c
    ensures SumSqDev(s, c) == 0.0
  {
    if |s| > 0 {
      SumSqDevOfEqual(s[..|s| - 1], c);
      assert Sq(s[|s| - 1] - c) == Sq(0.0) == 0.0;
    }
  }

  /** Squared deviations never sum to a negative amount. */
  lemma {:induction false} SumSqDevNonNegative(s: seq<real>, c: real)
    ensures SumSqDev(s, c) >= 0.0
  {
    if |s| > 0 {
      SumSqDevNonNegative(s[..|s| - 1], c);
      Square(s[|s| - 1] - c);
    }
  }

  /** One element away from the centre makes the squared deviations positive. */
  lemma {:induction false} SumSqDevPositive(s: seq<real>, c: real, k: nat)
    requires k < |s| && s[k] != c
    ensures SumSqDev(s, c) > 0.0
  {
    Square(s[|s| - 1] - c);
    if k < |s| - 1 {
      SumSqDevPositive(s[..|s| - 1], c, k);
    } else {
      SumSqDevNonNegative(s[..|s| - 1], c);
    }
  }

  /** Every element within [lo, hi] puts the sum within [n*lo, n*hi]. */
  lemma {:induction false} SumBounds(s: seq<real>, lo: real, hi: real)
    requires forall j :: 0 <= j < |s| ==> lo <= s[j] <= hi
    ensures (|s| as real) * lo <= Sum(s) <= (|s| as real) * hi
  {
    if |s| > 0 {
      SumBounds(s[..|s| - 1], lo, hi);
    }
  }

  /** The mean of a window lies within the window's range. */
  lemma AverageWithin(s: seq<real>, lo: real, hi: real)
    requires |s| > 0
    requires forall j :: 0 <= j < |s| ==> lo <= s[j] <= hi
    ensures lo <= Average(s) <= hi
  {
    SumBounds(s, lo, hi);
    var n := |s| as real;
    assert n * lo <= Sum(s) <= n * hi;
    assert Sum(s) == n * Average(s);
  }

  /** 0 + 1 + ... + (n - 1). */
  function Triangle(n: nat): nat
  {
    if n == 0 then 0 else Triangle(n - 1) + (n - 1)
  }

  /** Gauss's closed form for the triangle numbers. */
  lemma {:induction false} TriangleFormula(n: nat)
    ensures 2 * Triangle(n) == n * (n - 1)
  {
    if n > 0 {
      TriangleFormula(n - 1);
    }
  }

  /** The sum of a run a, a+1, ..., a+n-1, in Gauss's closed form. */
  lemma SumOfRun(s: seq<real>, a: real)
    requires forall j :: 0 <= j < |s| ==> s[j] == a + j as real
    ensures 2.0 * Sum(s) == 2.0 * (|s| as real) * a + (|s| * (|s| - 1)) as real
  {
    RunSum(s, a);
    TriangleFormula(|s|);
  }

  lemma {:induction false} RunSum(s: seq<real>, a: real)
    requires forall j :: 0 <= j < |s| ==> s[j] == a + j as real
    ensures Sum(s) == (|s| as real) * a + Triangle(|s|) as real
  {
    if |s| > 0 {
      var m := |s| - 1;
      RunSum(s[..m], a);
      Distribute(m as real, a);
    }
  }

  lemma Distribute(m: real, a: real)
    ensures (m + 1.0) * a == m * a + a
  {
  }

  /** A window of one repeated value c sums to n*c. */
  lemma SumOfConstant(s: seq<real>, c: real)
    requires forall j :: 0 <= j < |s| ==> s[j] == c
    ensures Sum(s) == (|s| as real) * c
  {
    SumBounds(s, c, c);
  }

  /** What `getStdDev(window, getAverage(window))` returns under a true
      square root: never negative, and zero exactly when the window is
      flat at a non-negative value (a flat negative window is measured
      from the wrong centre and gets a positive deviation). */
  lemma StdDevSign(s: seq<real>, sqrt: real -> real)
    requires |s| > 0 && IsSqrt(sqrt)
    ensures StdDev(s, Average(s), sqrt) >= 0.0
    ensures StdDev(s, Average(s), sqrt) == 0.0 <==> Constant(s) && s[0] >= 0.0
  {
    var c := Abs(Average(s));
    var n := |s| as real;
    var v := VarianceAsWritten(s, Average(s));
    if Constant(s) && s[0] >= 0.0 {
      AverageWithin(s, s[0], s[0]);
      SumSqDevOfEqual(s, s[0]);
      SqrtSign(sqrt, v);
    } else {
      var k: nat :| k < |s| && s[k] != c;
      SumSqDevPositive(s, c, k);
      PositiveQuotient(SumSqDev(s, c), n);
      SqrtSign(sqrt, v);
    }
  }

  /** Measuring from -c instead of c adds 4c times the sum. */
  lemma {:induction false} SumSqDevMirror(s: seq<real>, c: real)
    ensures SumSqDev(s, -c) == SumSqDev(s, c) + 4.0 * c * Sum(s)
  {
    if |s| > 0 {
      SumSqDevMirror(s[..|s| - 1], c);
      MirrorLast(s, c);
    }
  }

  /** The mirror identity extends from all but the last element to all. */
  lemma MirrorLast(s: seq<real>, c: real)
    requires |s| > 0
    requires SumSqDev(s[..|s| - 1], -c) == SumSqDev(s[..|s| - 1], c) + 4.0 * c * Sum(s[..|s| - 1])
    ensures SumSqDev(s, -c) == SumSqDev(s, c) + 4.0 * c * Sum(s)
  {
    var p := s[..|s| - 1];
    MirrorStep(SumSqDev(p, -c), SumSqDev(p, c), Sum(p), s[|s| - 1], c);
  }

  /** One more element x: the mirror identity carries over. */
  lemma MirrorStep(far: real, near: real, total: real, x: real, c: real)
    requires far == near + 4.0 * c * total
    ensures far + Sq(x - -c) == near + Sq(x - c) + 4.0 * c * (total + x)
  {
  }

  /** `getStdDev` centres on |mean|: with a negative mean the variance it
      computes exceeds the population variance by 4*mean^2, ... */
  lemma AbsMeanExcess(s: seq<real>)
    requires |s| > 0 && Average(s) < 0.0
    ensures VarianceAsWritten(s, Average(s)) == Variance(s) + 4.0 * Sq(Average(s))
  {
    var m, n := Average(s), |s| as real;
    ExcessSums(s);
    DivideExcess(SumSqDev(s, Abs(m)), SumSqDev(s, m), n, 4.0 * Sq(m));
  }

  /** The same before dividing by the length. */
  lemma ExcessSums(s: seq<real>)
    requires |s| > 0 && Average(s) < 0.0
    ensures SumSqDev(s, Abs(Average(s))) == SumSqDev(s, Average(s)) + (|s| as real) * (4.0 * Sq(Average(s)))
  {
    var m := Average(s);
    assert Abs(m) == -m;
    SumSqDevMirror(s, m);
    MeanTimesSum(Sum(s), |s| as real, m);
  }

  lemma MeanTimesSum(total: real, n: real, m: real)
    requires n > 0.0 && m == total / n
    ensures 4.0 * m * total == n * (4.0 * Sq(m))
  {
    assert total == n * m;
  }

  lemma DivideExcess(a: real, b: real, n: real, q: real)
    requires n > 0.0 && a == b + n * q
    ensures a / n == b / n + q
  {
  }

  /** ... so the two agree exactly when the mean is non-negative. */
  lemma AbsMeanAgrees(s: seq<real>)
    requires |s| > 0
    ensures VarianceAsWritten(s, Average(s)) == Variance(s) <==> Average(s) >= 0.0
  {
    var m := Average(s);
    if m < 0.0 {
      AbsMeanExcess(s);
      Square(m);
    }
  }

  /** With a negative mean the two differ: a flat window of a negative
      value c has variance 0, while `getStdDev` measures deviations from
      -c and reports a positive variance. */
  lemma AbsMeanDiverges(s: seq<real>, c: real)
    requires |s| > 0 && c < 0.0
    requires forall j :: 0 <= j < |s| ==> s[j] == c
    ensures Average(s) == c
    ensures Variance(s) == 0.0
    ensures VarianceAsWritten(s, Average(s)) > 0.0
  {
    AverageWithin(s, c, c);
    SumSqDevOfEqual(s, c);
    SumSqDevPositive(s, -c, 0);
    PositiveQuotient(SumSqDev(s, -c), |s| as real);
  }

  lemma PositiveQuotient(a: real, n: real)
    requires a > 0.0 && n > 0.0
    ensures a / n > 0.0
  {
  }
}
