/**
 The mean and variance of a set of samples, in the two forms the source computes them:
 late processing over the raw samples, early processing over two running sums.

 Samples are cycle counts, that is natural numbers; double and long double arithmetic is
 taken over the reals, except for the rounding the source asks for.
 */
module Statistics {
  import opened Sums

  // ---------------------------------------------------------------------------
  // Sums
  // ---------------------------------------------------------------------------

  function SumOfSquares(s: seq<nat>): nat {
    if s == [] then 0 else SumOfSquares(s[..|s| - 1]) + s[|s| - 1] * s[|s| - 1]
  }

  function Square(x: int): int { x * x }

  /** The sum of the squared distances of k*x from `centre`.  With k = 1 it is the usual
      deviation; with k the number of samples and `centre` their sum, it is the cube of
      that number times the variance about the exact mean. */
  function Deviation(s: seq<nat>, k: int, centre: int): int {
    if s == [] then 0 else Deviation(s[..|s| - 1], k, centre) + Square(k * s[|s| - 1] - centre)
  }

  function Mean(s: seq<nat>): real
    requires s != []
  {
    Sum(s) as real / |s| as real
  }

  /** The mean squared distance from a centre. */
  function Spread(s: seq<nat>, centre: int): real
    requires s != []
  {
    Deviation(s, 1, centre) as real / |s| as real
  }

  /** Round to nearest, halves away from zero. */
  function Round(x: real): int {
    if x >= 0.0 then (x + 0.5).Floor else -((-x + 0.5).Floor)
  }

  // ---------------------------------------------------------------------------
  // The recurrences compute the closed forms
  // ---------------------------------------------------------------------------

  /** `avg` is the average of `n` numbers with this total. */
  predicate Averages(avg: real, total: real, n: nat) { avg * n as real == total }

  /** One step of a running average. */
  lemma RunningAverage(avg: real, total: real, x: real, i: nat, next: real)
    requires Averages(avg, total, i) && next == avg + (x - avg) / (i + 1) as real
    ensures Averages(next, total + x, i + 1)
  {
    var n := (i + 1) as real;
    var d := (x - avg) / n;
    assert d * n == x - avg;
    assert (avg + d) * n == avg * n + d * n;
    assert avg * n == avg * i as real + avg;
  }

  lemma AverageIsQuotient(avg: real, total: real, n: nat)
    requires n > 0 && Averages(avg, total, n)
    ensures avg == total / n as real
  {
  }

  lemma SquareAsReal(x: int, y: real)
    requires y == x as real
    ensures Square(x) as real == y * y
  {
  }

  lemma MeanStep(a: seq<nat>, i: nat, mean: real, next: real)
    requires i < |a| && Averages(mean, Sum(a[..i]) as real, i)
    requires next == mean + (a[i] as real - mean) / (i + 1) as real
    ensures Averages(next, Sum(a[..i + 1]) as real, i + 1)
  {
    RunningAverage(mean, Sum(a[..i]) as real, a[i] as real, i, next);
    assert a[..i + 1][..i] == a[..i];
  }

  lemma SpreadStep(a: seq<nat>, i: nat, c: int, square: real, variance: real, next: real)
    requires i < |a| && Averages(variance, Deviation(a[..i], 1, c) as real, i)
    requires square == Square(a[i] - c) as real
    requires next == variance + (square - variance) / (i + 1) as real
    ensures Averages(next, Deviation(a[..i + 1], 1, c) as real, i + 1)
  {
    RunningAverage(variance, Deviation(a[..i], 1, c) as real, square, i, next);
    assert a[..i + 1][..i] == a[..i];
  }

  method ResultsMean(a: seq<nat>) returns (r: int)
    ensures a == [] ==> r == 0
    ensures a != [] ==> r == Round(Mean(a))
  {
    var mean := 0.0;
    for i := 0 to |a|
      invariant i == 0 ==> mean == 0.0
      invariant Averages(mean, Sum(a[..i]) as real, i)
    {
      var next := mean + (a[i] as real - mean) / (i + 1) as real;
      MeanStep(a, i, mean, next);
      mean := next;
    }
    if a != [] {
      assert a[..|a|] == a;
      AverageIsQuotient(mean, Sum(a) as real, |a|);
    }
    r := Round(mean);
  }

  method ResultsVariance(a: seq<nat>, mean: int) returns (r: int)
    ensures a == [] ==> r == 0
    ensures a != [] ==> r == Round(Spread(a, mean))
  {
    var variance := 0.0;
    for i := 0 to |a|
      invariant i == 0 ==> variance == 0.0
      invariant Averages(variance, Deviation(a[..i], 1, mean) as real, i)
    {
      var delta := a[i] as real - mean as real;
      var square := delta * delta;
      SquareAsReal(a[i] - mean, delta);
      var next := variance + (square - variance) / (i + 1) as real;
      SpreadStep(a, i, mean, square, variance, next);
      variance := next;
    }
    if a != [] {
      assert a[..|a|] == a;
      AverageIsQuotient(variance, Deviation(a, 1, mean) as real, |a|);
    }
    r := Round(variance);
  }

  // ---------------------------------------------------------------------------
  // Deviations around different centres
  // ---------------------------------------------------------------------------

  /** One more sample `x`, in terms of the sums so far. */
  lemma OneMoreTerm(q: int, t: int, n: int, k: int, c: int, x: int)
    ensures k * k * q - 2 * k * c * t + n * (c * c) + Square(k * x - c)
         == k * k * (q + x * x) - 2 * k * c * (t + x) + (n + 1) * (c * c)
  {
    var y := k * x;
    assert Square(y - c) == y * y - 2 * (y * c) + c * c;
    assert y * y == k * k * (x * x);
    assert y * c == k * c * x;
  }

  /** The deviation from the two running sums alone, as early processing computes it. */
  lemma {:induction false} DeviationFromSums(s: seq<nat>, k: int, c: int)
    ensures Deviation(s, k, c) == k * k * SumOfSquares(s) - 2 * k * c * Sum(s) + |s| * (c * c)
  {
    if s != [] {
      var t, x := s[..|s| - 1], s[|s| - 1];
      DeviationFromSums(t, k, c);
      OneMoreTerm(SumOfSquares(t), Sum(t), |t|, k, c, x);
    }
  }

  /** Moving the centre up by one. */
  lemma {:induction false} DeviationShift(s: seq<nat>, c: int)
    ensures Deviation(s, 1, c) - Deviation(s, 1, c + 1) == 2 * (Sum(s) - |s| * c) - |s|
  {
    if s != [] {
      var t, x := s[..|s| - 1], s[|s| - 1];
      DeviationShift(t, c);
      assert Square(x - c) - Square(x - c - 1) == 2 * (x - c) - 1;
      assert |s| * c == |t| * c + c;
    }
  }

  lemma Recentre(n: int, t: int, q: int, c: int)
    ensures n * n * (q - 2 * c * t + n * (c * c))
         == n * n * q - 2 * n * t * t + n * (t * t) + n * Square(t - n * c)
  {
    var e := n * c;
    assert Square(t - e) == t * t - 2 * (t * e) + e * e;
    assert n * n * (2 * c * t) == 2 * (n * (t * e));
    assert n * n * (n * (c * c)) == n * (e * e);
  }

  /** mean((x - c)^2) = variance + (mean - c)^2, multiplied by the cube of the number of
      samples so that everything is an integer. */
  lemma DeviationAround(s: seq<nat>, c: int)
    ensures |s| * |s| * Deviation(s, 1, c)
         == Deviation(s, |s|, Sum(s)) + |s| * Square(Sum(s) - |s| * c)
  {
    DeviationFromSums(s, 1, c);
    DeviationFromSums(s, |s|, Sum(s));
    Recentre(|s|, Sum(s), SumOfSquares(s), c);
  }

  // ---------------------------------------------------------------------------
  // Late and early processing
  // ---------------------------------------------------------------------------

  function LateMean(s: seq<nat>): int
    requires s != []
  {
    Round(Mean(s))
  }

  function LateVariance(s: seq<nat>): int
    requires s != []
  {
    Round(Spread(s, LateMean(s)))
  }

  function EarlyMean(num: nat, sum: nat): nat
    requires num > 0
  {
    sum / num
  }

  function EarlyNumerator(num: nat, sum: nat, sum2: nat, mean: nat): real {
    var m, t, n := mean as real, sum as real, num as real;
    sum2 as real - 2.0 * m * t + n * m * m
  }

  function EarlyVariance(num: nat, sum: nat, sum2: nat, mean: nat): real
    requires num > 0
  {
    EarlyNumerator(num, sum, sum2, mean) / num as real
  }

  lemma MulAsReal(x: int, y: int, a: real, b: real)
    requires a == x as real && b == y as real
    ensures (x * y) as real == a * b
  {
  }

  lemma NumeratorIsInteger(num: nat, sum: nat, sum2: nat, mean: nat)
    ensures EarlyNumerator(num, sum, sum2, mean) == (sum2 - 2 * (mean * sum) + num * (mean * mean)) as real
  {
    var m, t, n := mean as real, sum as real, num as real;
    MulAsReal(mean, sum, m, t);
    MulAsReal(mean, mean, m, m);
    MulAsReal(num, mean * mean, n, m * m);
    assert n * m * m == n * (m * m);
    assert 2.0 * m * t == 2.0 * (m * t);
  }

  lemma DropFactorOne(q: int, t: int, n: int, c: int)
    ensures 1 * 1 * q - 2 * 1 * c * t + n * (c * c) == q - 2 * (c * t) + n * (c * c)
  {
  }

  lemma PlainDeviationFromSums(s: seq<nat>, c: int)
    ensures Deviation(s, 1, c) == SumOfSquares(s) - 2 * (c * Sum(s)) + |s| * (c * c)
  {
    DeviationFromSums(s, 1, c);
    DropFactorOne(SumOfSquares(s), Sum(s), |s|, c);
  }

  lemma NumeratorIsDeviation(s: seq<nat>, m: nat)
    ensures EarlyNumerator(|s|, Sum(s), SumOfSquares(s), m) == Deviation(s, 1, m) as real
  {
    PlainDeviationFromSums(s, m);
    NumeratorIsInteger(|s|, Sum(s), SumOfSquares(s), m);
  }

  /** From the sums, early processing computes the mean squared distance from its mean exactly. */
  lemma EarlyVarianceIsSpread(s: seq<nat>, m: nat)
    requires s != []
    ensures EarlyVariance(|s|, Sum(s), SumOfSquares(s), m) == Spread(s, m)
  {
    NumeratorIsDeviation(s, m);
  }

  lemma RoundBounds(x: real)
    requires x >= 0.0
    ensures Round(x) as real - 0.5 <= x < Round(x) as real + 0.5
  {
  }

  lemma ScaleUp(a: real, b: real, n: real)
    requires n > 0.0 && a <= b
    ensures a * n <= b * n
  {
  }

  lemma PositiveProduct(a: real, b: real)
    requires a > 0.0 && b > 0.0
    ensures a * b > 0.0
  {
  }

  lemma HalfUnitBelow(x: real, d: real, m: real, p: real)
    requires d > 0.0 && m - 0.5 <= x && p == (2.0 * m - 1.0) * d
    ensures p <= 2.0 * (x * d)
  {
    ScaleUp(2.0 * m - 1.0, 2.0 * x, d);
  }

  lemma HalfUnitAbove(x: real, d: real, m: real, p: real)
    requires d > 0.0 && x < m + 0.5 && p == (2.0 * m + 1.0) * d
    ensures 2.0 * (x * d) < p
  {
    var gap := m + 0.5 - x;
    PositiveProduct(gap, d);
    assert p == 2.0 * (x * d) + 2.0 * (gap * d);
  }

  /** The rounded quotient is within half a unit: 2t lies in [(2m - 1)n, (2m + 1)n). */
  lemma RoundedQuotient(t: nat, n: nat, m: int)
    requires n > 0 && m == Round(t as real / n as real)
    ensures (2 * m - 1) * n <= 2 * t < (2 * m + 1) * n
  {
    var x, d, r := t as real / n as real, n as real, m as real;
    var p, q := (2 * m - 1) * n, (2 * m + 1) * n;
    assert x * d == t as real;
    RoundBounds(x);
    assert p as real == (2.0 * r - 1.0) * d by { MulAsReal(2 * m - 1, n, 2.0 * r - 1.0, d); }
    assert q as real == (2.0 * r + 1.0) * d by { MulAsReal(2 * m + 1, n, 2.0 * r + 1.0, d); }
    HalfUnitBelow(x, d, r, p as real);
    HalfUnitAbove(x, d, r, q as real);
  }

  lemma CancelFactor(x: int, y: int, n: int)
    requires n > 0 && x * n < y * n
    ensures x < y
  {
  }

  lemma TruncatedAgainstRounded(n: int, t: int, m: int, e: int)
    requires n > 0 && (2 * m - 1) * n <= 2 * t < (2 * m + 1) * n
    requires e * n <= t < (e + 1) * n
    ensures m == e || m == e + 1
    ensures m == e + 1 ==> 0 <= 2 * (t - n * e) - n < n
  {
    assert (2 * e) * n == 2 * (e * n);
    assert (2 * e + 2) * n == 2 * ((e + 1) * n);
    CancelFactor(2 * e, 2 * m + 1, n);
    CancelFactor(2 * m - 1, 2 * e + 2, n);
    assert (2 * e + 1) * n == 2 * (e * n) + n;
    assert (e + 1) * n == e * n + n;
  }

  lemma EarlyMeanBounds(n: nat, t: nat)
    requires n > 0
    ensures EarlyMean(n, t) * n <= t < (EarlyMean(n, t) + 1) * n
  {
    var e := t / n;
    assert t == e * n + t % n;
    assert (e + 1) * n == e * n + n;
  }

  /** The early mean truncates, the late mean rounds: they differ by at most one. */
  lemma MeansAgree(s: seq<nat>)
    requires s != []
    ensures LateMean(s) - EarlyMean(|s|, Sum(s)) == 0 || LateMean(s) - EarlyMean(|s|, Sum(s)) == 1
  {
    RoundedQuotient(Sum(s), |s|, LateMean(s));
    EarlyMeanBounds(|s|, Sum(s));
    TruncatedAgainstRounded(|s|, Sum(s), LateMean(s), EarlyMean(|s|, Sum(s)));
  }

  /** Moving from the early to the late centre lowers the deviation by less than n. */
  lemma CentresDiffer(s: seq<nat>, m: int, e: int)
    requires s != [] && (2 * m - 1) * |s| <= 2 * Sum(s) < (2 * m + 1) * |s|
    requires e * |s| <= Sum(s) < (e + 1) * |s|
    ensures 0 <= Deviation(s, 1, e) - Deviation(s, 1, m) < |s|
  {
    TruncatedAgainstRounded(|s|, Sum(s), m, e);
    if m == e + 1 {
      DeviationShift(s, e);
    }
  }

  lemma RatioBounds(a: real, d: real, p: real)
    requires d > 0.0 && p == a * d && 0.0 <= p < d
    ensures 0.0 <= a < 1.0
  {
    if a >= 1.0 { ScaleUp(1.0, a, d); }
    if a < 0.0 { PositiveProduct(-a, d); }
  }

  lemma QuotientOfDifference(x: int, y: int, n: int)
    requires n > 0 && 0 <= x - y < n
    ensures 0.0 <= x as real / n as real - y as real / n as real < 1.0
  {
    var d := n as real;
    var a, b := x as real / d, y as real / d;
    assert (a - b) * d == (x - y) as real by {
      assert a * d == x as real && b * d == y as real;
      assert (a - b) * d == a * d - b * d;
    }
    RatioBounds(a - b, d, (x - y) as real);
  }

  lemma {:induction false} DeviationNonNegative(s: seq<nat>, k: int, c: int)
    ensures Deviation(s, k, c) >= 0
  {
    if s != [] {
      DeviationNonNegative(s[..|s| - 1], k, c);
      var x := k * s[|s| - 1] - c;
      assert Square(x) >= 0;
    }
  }

  /** The early variance, which is not rounded, is at most one half below and less than
      three halves above the late one. */
  lemma VariancesAgree(s: seq<nat>)
    requires s != []
    ensures var early := EarlyVariance(|s|, Sum(s), SumOfSquares(s), EarlyMean(|s|, Sum(s)));
            -0.5 <= early - LateVariance(s) as real < 1.5
  {
    var m, e := LateMean(s), EarlyMean(|s|, Sum(s));
    EarlyVarianceIsSpread(s, e);
    RoundedQuotient(Sum(s), |s|, m);
    EarlyMeanBounds(|s|, Sum(s));
    CentresDiffer(s, m, e);
    QuotientOfDifference(Deviation(s, 1, e), Deviation(s, 1, m), |s|);
    DeviationNonNegative(s, 1, m);
    RoundBounds(Spread(s, m));
  }

  /** The variance about the exact mean. */
  function TrueVariance(s: seq<nat>): real
    requires s != []
  {
    Deviation(s, |s|, Sum(s)) as real / (|s| * |s| * |s|) as real
  }

  lemma QuarterBound(n: int, y: int)
    requires n > 0 && -n <= 2 * y <= n
    ensures 0 <= 4 * (n * Square(y)) <= n * n * n
  {
    assert 0 <= (n - 2 * y) * (n + 2 * y);
    assert (n - 2 * y) * (n + 2 * y) == n * n - 4 * Square(y);
    assert Square(y) >= 0;
    assert n * (n * n - 4 * Square(y)) == n * n * n - 4 * (n * Square(y));
    assert n * (n * n - 4 * Square(y)) >= 0;
  }

  lemma QuarterRatio(a: real, d: real, p: real)
    requires d > 0.0 && p == a * d && 0.0 <= 4.0 * p <= d
    ensures 0.0 <= a <= 0.25
  {
    if a > 0.25 { PositiveProduct(a - 0.25, d); }
    if a < 0.0 { PositiveProduct(-a, d); }
  }

  lemma SpreadScaled(x: int, n: int, d: real)
    requires n > 0 && d == (n * n * n) as real
    ensures (x as real / n as real) * d == (n * n * x) as real
  {
    var r, q := n as real, x as real / n as real;
    assert q * r == x as real;
    assert d == (n * n) as real * r by {
      MulAsReal(n * n, n, (n * n) as real, r);
    }
    assert (n * n * x) as real == (n * n) as real * x as real by {
      MulAsReal(n * n, x, (n * n) as real, x as real);
    }
    assert q * ((n * n) as real * r) == (n * n) as real * (q * r);
  }

  lemma BiasRatio(x: int, v: int, n: int, b: int)
    requires n > 0 && n * n * n > 0 && n * n * x == v + b && 0 <= 4 * b <= n * n * n
    ensures 0.0 <= x as real / n as real - v as real / (n * n * n) as real <= 0.25
  {
    var d := (n * n * n) as real;
    var a, c := x as real / n as real, v as real / d;
    SpreadScaled(x, n, d);
    assert c * d == v as real;
    assert (a - c) * d == a * d - c * d;
    QuarterRatio(a - c, d, b as real);
  }

  lemma CloseCentre(n: int, t: int, m: int)
    requires n > 0 && (2 * m - 1) * n <= 2 * t < (2 * m + 1) * n
    ensures 0 <= 4 * (n * Square(t - n * m)) <= n * n * n
  {
    assert (2 * m - 1) * n == 2 * (n * m) - n;
    assert (2 * m + 1) * n == 2 * (n * m) + n;
    QuarterBound(n, t - n * m);
  }

  /** Taking the rounded mean as centre overstates the variance, before rounding, by at
      most one quarter. */
  lemma RoundedCentreBias(s: seq<nat>)
    requires s != []
    ensures 0.0 <= Spread(s, LateMean(s)) - TrueVariance(s) <= 0.25
  {
    RoundedQuotient(Sum(s), |s|, LateMean(s));
    CloseCentre(|s|, Sum(s), LateMean(s));
    DeviationAround(s, LateMean(s));
    BiasRatio(Deviation(s, 1, LateMean(s)), Deviation(s, |s|, Sum(s)), |s|, |s| * Square(Sum(s) - |s| * LateMean(s)));
  }

  /** The lower bound of the agreement of the variances is attained. */
  lemma LowerBoundAttained()
    ensures var s: seq<nat> := [1, 1, 2, 0];
            EarlyVariance(|s|, Sum(s), SumOfSquares(s), EarlyMean(|s|, Sum(s))) - LateVariance(s) as real == -0.5
  {
    var s0: seq<nat>, s1: seq<nat>, s2: seq<nat>, s3: seq<nat>, s: seq<nat> := [], [1], [1, 1], [1, 1, 2], [1, 1, 2, 0];
    assert s[..3] == s3 && s3[..2] == s2 && s2[..1] == s1 && s1[..0] == s0;
    assert Sum(s) == 4 && SumOfSquares(s) == 6;
    assert Deviation(s, 1, 1) == 2;
    assert Mean(s) == 1.0 && LateMean(s) == 1;
    assert Spread(s, 1) == 0.5;
  }

  function Repeated(x: nat, n: nat): (r: seq<nat>)
    ensures |r| == n
  {
    if n == 0 then [] else Repeated(x, n - 1) + [x]
  }

  lemma OneMoreOf(n: int, y: int)
    ensures n * y == (n - 1) * y + y
  {
  }

  lemma AppendOne(s: seq<nat>, x: nat, y: nat)
    requires y == x * x
    ensures Sum(s + [x]) == Sum(s) + x && SumOfSquares(s + [x]) == SumOfSquares(s) + y
  {
    assert (s + [x])[..|s|] == s;
  }

  lemma {:induction false} AppendRepeated(s: seq<nat>, x: nat, n: nat, y: nat)
    requires y == x * x
    ensures Sum(s + Repeated(x, n)) == Sum(s) + n * x
    ensures SumOfSquares(s + Repeated(x, n)) == SumOfSquares(s) + n * y
    decreases n
  {
    if n == 0 {
      assert s + Repeated(x, 0) == s;
    } else {
      AppendRepeated(s, x, n - 1, y);
      AppendOne(s + Repeated(x, n - 1), x, y);
      assert s + Repeated(x, n) == s + Repeated(x, n - 1) + [x];
      OneMoreOf(n, x);
      OneMoreOf(n, y);
    }
  }

  /** Zeros, twos and ones with a mean just below one and a spread around one just below a half. */
  function Lopsided(p: nat): (s: seq<nat>)
    ensures |s| == 4 * p + 3
  {
    Repeated(0, p + 1) + Repeated(2, p) + Repeated(1, 2 * p + 2)
  }

  lemma LopsidedSums(p: nat)
    ensures Sum(Lopsided(p)) == 4 * p + 2 && SumOfSquares(Lopsided(p)) == 6 * p + 2
  {
    var a := Repeated(0, p + 1);
    assert [] + a == a;
    AppendRepeated([], 0, p + 1, 0);
    AppendRepeated(a, 2, p, 4);
    AppendRepeated(a + Repeated(2, p), 1, 2 * p + 2, 1);
  }

  /** The converse of RoundedQuotient. */
  lemma RoundOfQuotient(t: nat, n: nat, m: nat)
    requires n > 0 && (2 * m - 1) * n <= 2 * t < (2 * m + 1) * n
    ensures Round(t as real / n as real) == m
  {
    var q := t as real / n as real;
    var k := Round(q);
    RoundedQuotient(t, n, k);
    CancelFactor(2 * k - 1, 2 * m + 1, n);
    CancelFactor(2 * m - 1, 2 * k + 1, n);
  }

  lemma RoundOfSpread(s: seq<nat>, c: int, t: nat, n: nat, m: nat)
    requires s != [] && n == |s| && t == Deviation(s, 1, c) && (2 * m - 1) * n <= 2 * t < (2 * m + 1) * n
    ensures Round(Spread(s, c)) == m
  {
    RoundOfQuotient(t, n, m);
  }

  lemma LopsidedLateMean(p: nat, n: nat)
    requires n == 4 * p + 3
    ensures LateMean(Lopsided(p)) == 1
  {
    LopsidedSums(p);
    RoundOfQuotient(n - 1, n, 1);
  }

  lemma LopsidedLate(p: nat, n: nat)
    requires n == 4 * p + 3
    ensures LateVariance(Lopsided(p)) == 0
  {
    LopsidedSums(p);
    LopsidedLateMean(p, n);
    PlainDeviationFromSums(Lopsided(p), 1);
    RoundOfSpread(Lopsided(p), 1, 2 * p + 1, n, 0);
  }

  lemma LopsidedEarly(p: nat, n: nat)
    requires n == 4 * p + 3
    ensures EarlyMean(n, n - 1) == 0
    ensures EarlyVariance(n, n - 1, 6 * p + 2, 0) == (6 * p + 2) as real / n as real
  {
    EarlyMeanBounds(n, n - 1);
    var e := EarlyMean(n, n - 1);
    assert e >= 1 ==> (e - 1) * n >= 0;
    assert (e - 1) * n == e * n - n;
    NumeratorIsInteger(n, n - 1, 6 * p + 2, 0);
  }

  lemma SplitQuotient(a: real, d: real)
    requires d > 0.0 && a == 1.5 * d - 2.5
    ensures a / d == 1.5 - 2.5 / d
  {
    assert 2.5 / d * d == 2.5;
    assert (1.5 - 2.5 / d) * d == a;
  }

  /** The upper bound is approached as closely as one likes. */
  lemma UpperBoundApproached(p: nat)
    ensures var s := Lopsided(p);
            EarlyVariance(|s|, Sum(s), SumOfSquares(s), EarlyMean(|s|, Sum(s))) - LateVariance(s) as real
            == 1.5 - 2.5 / (4 * p + 3) as real
  {
    var n := 4 * p + 3;
    LopsidedSums(p);
    LopsidedEarly(p, n);
    LopsidedLate(p, n);
    SplitQuotient((6 * p + 2) as real, n as real);
  }
}
