/**
 Late processing of one set of raw results: skip the ignored prefix, check stability,
 subtract the overhead in place and compute the statistics.
 */
module Processing {
  import opened Modular
  import opened Sums
  import opened Statistics
  import opened OrderStatistics

  /** The statistics of one set of samples, without the standard deviation. */
  datatype Result = Result(
    min: int, max: int, mean: int, variance: int,
    median: real, firstQuantile: real, thirdQuantile: real, mode: int, samples: nat)

  const ZERO_RESULT: Result := Result(0, 0, 0, 0, 0.0, 0.0, 0.0, 0, 0)

  /** The order statistics of sorted samples; `modulus` is the range of a machine word. */
  ghost predicate Orders(s: seq<nat>, modulus: nat, r: Result)
    requires s != [] && modulus > 0
  {
    && r.min == s[0] && r.max == s[|s| - 1]
    && r.median == Median(s, modulus)
    && r.firstQuantile == Quantile(s, 0.25) && r.thirdQuantile == Quantile(s, 0.75)
  }

  ghost predicate Moments(s: seq<nat>, r: Result)
    requires s != []
  {
    r.mean == LateMean(s) && r.variance == LateVariance(s)
  }

  ghost predicate Modal(s: seq<nat>, r: Result) { r.mode >= 0 && ReportedMode(s, r.mode) }

  /** `r` holds the statistics of `data`. */
  ghost predicate Summarises(data: seq<nat>, modulus: nat, r: Result)
    requires data != [] && modulus > 0
  {
    var s := Sort(data);
    Orders(s, modulus, r) && Moments(s, r) && Modal(s, r) && r.samples == |data|
  }

  method CalculateResults(data: seq<nat>, modulus: nat) returns (r: Result)
    requires data != [] && modulus > 0
    ensures Summarises(data, modulus, r)
    ensures AtQuarters(Sort(data), 1, r.firstQuantile) && AtQuarters(Sort(data), 3, r.thirdQuantile)
  {
    var s := Sort(data);
    var mean := ResultsMean(s);
    var variance := ResultsVariance(s, mean);
    var mode := ResultsMode(s);
    QuartilesAreAtQuarters(s);
    r := Result(s[0], s[|s| - 1], mean, variance, Median(s, modulus),
                Quantile(s, 0.25), Quantile(s, 0.75), mode, |data|);
  }

  /** The statistics depend only on which samples there are, not on their order. */
  lemma OnlyTheElementsMatter(a: seq<nat>, b: seq<nat>, modulus: nat, r: Result, q: Result)
    requires a != [] && b != [] && modulus > 0 && multiset(a) == multiset(b)
    requires Summarises(a, modulus, r) && Summarises(b, modulus, q)
    ensures r == q
  {
    SortedIsUnique(Sort(a), Sort(b));
    ReportedModeIsUnique(Sort(a), r.mode, q.mode);
    assert |a| == |multiset(a)| == |multiset(b)| == |b|;
  }

  // ---------------------------------------------------------------------------
  // Processing in place
  // ---------------------------------------------------------------------------

  predicate AllEqual(s: seq<nat>) {
    forall i, j :: 0 <= i < j < |s| ==> s[i] == s[j]
  }

  method ResultsStable(a: seq<nat>) returns (stable: bool)
    ensures stable <==> AllEqual(a)
  {
    var i := 1;
    while i < |a|
      invariant 1 <= i
      invariant forall j :: 0 <= j < i && j < |a| ==> a[j] == a[0]
    {
      if a[i] != a[i - 1] {
        assert a[0] != a[i];
        return false;
      }
      i := i + 1;
    }
    return true;
  }

  /** Subtraction in machine words. */
  function SubtractWord(x: nat, overhead: nat, modulus: nat): nat
    requires modulus > 0
  {
    (x - overhead) % modulus
  }

  function Subtract(s: seq<nat>, overhead: nat, modulus: nat): (t: seq<nat>)
    requires modulus > 0
    ensures |t| == |s|
    ensures forall i :: 0 <= i < |s| ==> t[i] == SubtractWord(s[i], overhead, modulus)
  {
    seq(|s|, i requires 0 <= i < |s| => SubtractWord(s[i], overhead, modulus))
  }

  /** Samples that vary although the description asks for a stable value. */
  predicate Rejected(kept: seq<nat>, stable: bool, allowUnstable: bool) {
    stable && !AllEqual(kept) && !allowUnstable
  }

  method SubtractOverhead(a: array<nat>, ignored: nat, overhead: nat, modulus: nat)
    requires ignored <= a.Length && modulus > 0
    modifies a
    ensures a[..ignored] == old(a[..ignored])
    ensures a[ignored..] == Subtract(old(a[ignored..]), overhead, modulus)
  {
    for i := ignored to a.Length
      invariant forall j :: 0 <= j < ignored ==> a[j] == old(a[j])
      invariant forall j :: ignored <= j < i ==> a[j] == SubtractWord(old(a[j]), overhead, modulus)
      invariant forall j :: i <= j < a.Length ==> a[j] == old(a[j])
    {
      a[i] := SubtractWord(a[i], overhead, modulus);
    }
  }

  method ProcessResult(a: array<nat>, ignored: nat, stable: bool, allowUnstable: bool, overhead: nat, modulus: nat)
    returns (r: Result)
    requires ignored < a.Length && modulus > 0
    modifies a
    ensures a[..ignored] == old(a[..ignored])
    ensures Rejected(old(a[ignored..]), stable, allowUnstable) ==> a[..] == old(a[..]) && r == ZERO_RESULT
    ensures !Rejected(old(a[ignored..]), stable, allowUnstable) ==>
              && a[ignored..] == Subtract(old(a[ignored..]), overhead, modulus)
              && Summarises(a[ignored..], modulus, r)
  {
    if stable {
      var isStable := ResultsStable(a[ignored..]);
      if !isStable && !allowUnstable {
        return ZERO_RESULT;
      }
    }
    SubtractOverhead(a, ignored, overhead, modulus);
    r := CalculateResults(a[ignored..], modulus);
  }

  // ---------------------------------------------------------------------------
  // Subtracting the overhead is a pure shift
  // ---------------------------------------------------------------------------

  predicate AtLeast(s: seq<nat>, o: nat) { forall i :: 0 <= i < |s| ==> s[i] >= o }

  function Shift(s: seq<nat>, o: nat): (t: seq<nat>)
    requires AtLeast(s, o)
    ensures |t| == |s|
  {
    seq(|s|, i requires 0 <= i < |s| => s[i] - o)
  }

  lemma NoBorrow(x: nat, o: nat, modulus: nat)
    requires o <= x < modulus
    ensures SubtractWord(x, o, modulus) == x - o
  {
  }

  /** Without borrow, subtracting in machine words is subtracting. */
  lemma SubtractIsShift(s: seq<nat>, o: nat, modulus: nat)
    requires modulus > 0 && AtLeast(s, o) && (forall i :: 0 <= i < |s| ==> s[i] < modulus)
    ensures Subtract(s, o, modulus) == Shift(s, o)
  {
    var t, u := Subtract(s, o, modulus), Shift(s, o);
    forall i | 0 <= i < |s| ensures t[i] == u[i] {
      NoBorrow(s[i], o, modulus);
    }
  }

  lemma ShiftDropLast(s: seq<nat>, o: nat)
    requires AtLeast(s, o) && s != []
    ensures AtLeast(s[..|s| - 1], o)
    ensures Shift(s, o)[..|s| - 1] == Shift(s[..|s| - 1], o)
    ensures Shift(s, o) == Shift(s[..|s| - 1], o) + [s[|s| - 1] - o]
  {
  }

  lemma CountStep(s: seq<nat>, p: seq<nat>, x: nat, w: nat, t: seq<nat>, q: seq<nat>, y: nat, v: nat)
    requires s == p + [x] && t == q + [y]
    requires Count(q, v) == Count(p, w) && (y == v <==> x == w)
    ensures Count(t, v) == Count(s, w)
  {
    CountAppend(q, y, v);
    CountAppend(p, x, w);
  }

  lemma {:induction false} ShiftCount(s: seq<nat>, o: nat, v: nat)
    requires AtLeast(s, o)
    ensures Count(Shift(s, o), v) == Count(s, v + o)
  {
    if s != [] {
      var p, x := s[..|s| - 1], s[|s| - 1];
      ShiftDropLast(s, o);
      ShiftCount(p, o, v);
      CountStep(s, p, x, v + o, Shift(s, o), Shift(p, o), x - o, v);
    }
  }

  lemma SameElementsShifted(s: seq<nat>, t: seq<nat>, o: nat)
    requires AtLeast(s, o) && AtLeast(t, o) && multiset(s) == multiset(t)
    ensures multiset(Shift(s, o)) == multiset(Shift(t, o))
  {
    forall v: nat ensures multiset(Shift(s, o))[v] == multiset(Shift(t, o))[v] {
      ShiftCount(s, o, v);
      ShiftCount(t, o, v);
    }
  }

  lemma SortShift(s: seq<nat>, o: nat)
    requires AtLeast(s, o)
    ensures AtLeast(Sort(s), o) && Sort(Shift(s, o)) == Shift(Sort(s), o)
  {
    var t := Sort(s);
    forall i | 0 <= i < |t| ensures t[i] >= o {
      assert t[i] in multiset(t);
      assert t[i] in s;
    }
    SameElementsShifted(s, t, o);
    SortedIsUnique(Sort(Shift(s, o)), Shift(t, o));
  }

  lemma {:induction false} ShiftSum(s: seq<nat>, o: nat)
    requires AtLeast(s, o)
    ensures Sum(Shift(s, o)) == Sum(s) - |s| * o
  {
    if s != [] {
      ShiftDropLast(s, o);
      ShiftSum(s[..|s| - 1], o);
      assert |s| * o == (|s| - 1) * o + o;
    }
  }

  lemma {:induction false} ShiftDeviation(s: seq<nat>, o: nat, c: int)
    requires AtLeast(s, o)
    ensures Deviation(Shift(s, o), 1, c - o) == Deviation(s, 1, c)
  {
    if s != [] {
      ShiftDropLast(s, o);
      ShiftDeviation(s[..|s| - 1], o, c);
    }
  }

  lemma QuotientShift(t: int, n: int, o: int)
    requires n > 0
    ensures (t - n * o) as real / n as real == t as real / n as real - o as real
  {
    var d, x := n as real, t as real / n as real;
    assert x * d == t as real;
    MulAsReal(n, o, d, o as real);
    assert (x - o as real) * d == x * d - d * o as real;
  }

  lemma RoundShift(x: real, y: real, o: nat)
    requires x == y - o as real && x >= 0.0
    ensures Round(x) == Round(y) - o
  {
  }

  lemma ShiftMean(s: seq<nat>, o: nat)
    requires s != [] && AtLeast(s, o)
    ensures LateMean(Shift(s, o)) == LateMean(s) - o
  {
    assert Mean(Shift(s, o)) == Mean(s) - o as real by {
      ShiftSum(s, o);
      QuotientShift(Sum(s), |s|, o);
    }
    RoundShift(Mean(Shift(s, o)), Mean(s), o);
  }

  lemma ShiftVariance(s: seq<nat>, o: nat)
    requires s != [] && AtLeast(s, o)
    ensures LateVariance(Shift(s, o)) == LateVariance(s)
  {
    ShiftMean(s, o);
    ShiftDeviation(s, o, LateMean(s));
  }

  lemma BlendShift(a: real, b: real, d: real, o: real)
    ensures Mix(a - o, b - o, d) == Mix(a, b, d) - o
  {
    assert (1.0 - d) * (a - o) == (1.0 - d) * a - (1.0 - d) * o;
    assert d * (b - o) == d * b - d * o;
    assert (1.0 - d) * o + d * o == o;
  }

  lemma ShiftQuantile(s: seq<nat>, o: nat, q: real)
    requires s != [] && AtLeast(s, o) && 0.0 <= q <= 1.0
    ensures Quantile(Shift(s, o), q) == Quantile(s, q) - o as real
  {
    var x := Position(|s|, q);
    var k := x.Floor;
    if k < |s| - 1 {
      BlendShift(s[k] as real, s[k + 1] as real, x - k as real, o as real);
    }
  }

  /** Taking twice the overhead off a wrapped sum. */
  lemma WrappedDifference(x: nat, d: nat, modulus: nat)
    requires modulus > 0 && d <= x
    ensures (x - d) % modulus == x % modulus - d <==> x % modulus >= d
  {
    var q, r := x / modulus, x % modulus;
    HighLow(x, modulus);
    if r >= d { DivideBy(x - d, modulus, q, r - d); }
  }

  /** The median moves by the overhead exactly when the wrapped sum it halves is large enough. */
  lemma ShiftMedian(s: seq<nat>, o: nat, modulus: nat)
    requires s != [] && AtLeast(s, o) && modulus > 0
    ensures Median(Shift(s, o), modulus) == Median(s, modulus) - o as real
      <==> |s| % 2 == 1 || MiddleSum(s) % modulus >= 2 * o
  {
    var k := (|s| - 1) / 2;
    if |s| % 2 == 0 {
      assert |s| / 2 == k + 1;
      var x := MiddleSum(s);
      assert MiddleSum(Shift(s, o)) == x - 2 * o;
      WrappedDifference(x, 2 * o, modulus);
      MedianIsHalfTheSum(s, modulus);
      MedianIsHalfTheSum(Shift(s, o), modulus);
    } else {
      assert |s| / 2 == k;
    }
  }

  lemma InShift(s: seq<nat>, o: nat, v: nat)
    requires AtLeast(s, o)
    ensures v in Shift(s, o) <==> v + o in s
  {
    ShiftCount(s, o, v);
    assert v in Shift(s, o) <==> v in multiset(Shift(s, o));
    assert v + o in s <==> v + o in multiset(s);
  }

  lemma ShiftMostFrequent(s: seq<nat>, o: nat, top: nat, m: nat)
    requires AtLeast(s, o) && MostFrequentBelow(s, top, m) && top >= o
    ensures m >= o && MostFrequentBelow(Shift(s, o), top - o, m - o)
  {
    var t := Shift(s, o);
    assert m >= o by { var i :| 0 <= i < |s| && s[i] == m; }
    InShift(s, o, m - o);
    ShiftCount(s, o, m - o);
    forall v | v in t && v < top - o
      ensures Count(t, v) <= Count(t, m - o) && (Count(t, v) == Count(t, m - o) ==> m - o <= v)
    {
      InShift(s, o, v);
      ShiftCount(s, o, v);
    }
  }

  lemma ShiftMode(s: seq<nat>, o: nat, m: nat)
    requires s != [] && AtLeast(s, o) && ReportedMode(s, m)
    ensures m >= o && ReportedMode(Shift(s, o), m - o)
  {
    if s[0] != s[|s| - 1] {
      ShiftMostFrequent(s, o, s[|s| - 1], m);
    }
  }

  /** A result with every location statistic but the median moved down by `o`. */
  function Moved(r: Result, o: nat, median: real): Result {
    Result(r.min - o, r.max - o, r.mean - o, r.variance, median,
           r.firstQuantile - o as real, r.thirdQuantile - o as real, r.mode - o, r.samples)
  }

  lemma OrdersMove(s: seq<nat>, o: nat, modulus: nat, r: Result)
    requires s != [] && AtLeast(s, o) && modulus > 0 && Orders(s, modulus, r)
    ensures Orders(Shift(s, o), modulus, Moved(r, o, Median(Shift(s, o), modulus)))
  {
    ShiftQuantile(s, o, 0.25);
    ShiftQuantile(s, o, 0.75);
  }

  lemma MomentsMove(s: seq<nat>, o: nat, r: Result, median: real)
    requires s != [] && AtLeast(s, o) && Moments(s, r)
    ensures Moments(Shift(s, o), Moved(r, o, median))
  {
    ShiftMean(s, o);
    ShiftVariance(s, o);
  }

  lemma OneSummary(s: seq<nat>, modulus: nat, r: Result, q: Result)
    requires s != [] && modulus > 0 && r.samples == q.samples
    requires Orders(s, modulus, r) && Moments(s, r) && Modal(s, r)
    requires Orders(s, modulus, q) && Moments(s, q) && Modal(s, q)
    ensures r == q
  {
    ReportedModeIsUnique(s, r.mode, q.mode);
  }

  lemma SummaryMoves(s: seq<nat>, o: nat, modulus: nat, before: Result, after: Result)
    requires s != [] && modulus > 0 && AtLeast(s, o) && before.samples == after.samples
    requires Orders(s, modulus, before) && Moments(s, before) && Modal(s, before)
    requires Orders(Shift(s, o), modulus, after) && Moments(Shift(s, o), after) && Modal(Shift(s, o), after)
    ensures after == Moved(before, o, after.median)
  {
    OrdersMove(s, o, modulus, before);
    MomentsMove(s, o, before, after.median);
    ShiftMode(s, o, before.mode);
    OneSummary(Shift(s, o), modulus, after, Moved(before, o, after.median));
  }

  /** When no kept sample is below the overhead, subtracting it moves minimum, maximum, mean,
      quartiles and mode down by exactly the overhead and leaves the variance and the number
      of samples alone. The median moves with them exactly when there is one middle sample or
      the wrapped sum of the two is at least twice the overhead. */
  lemma OverheadIsAPureShift(kept: seq<nat>, overhead: nat, modulus: nat, before: Result, after: Result)
    requires kept != [] && modulus > 0 && AtLeast(kept, overhead)
    requires forall i :: 0 <= i < |kept| ==> kept[i] < modulus
    requires Summarises(kept, modulus, before)
    requires Summarises(Subtract(kept, overhead, modulus), modulus, after)
    ensures after == Moved(before, overhead, after.median)
    ensures after.median == before.median - overhead as real
      <==> |kept| % 2 == 1 || MiddleSum(Sort(kept)) % modulus >= 2 * overhead
  {
    SubtractIsShift(kept, overhead, modulus);
    SortShift(kept, overhead);
    SummaryMoves(Sort(kept), overhead, modulus, before, after);
    ShiftMedian(Sort(kept), overhead, modulus);
  }

  /** Whatever the word size, two samples of the largest word and that word as overhead: the
      median goes from half of the wrapped sum to 0. */
  lemma MedianCanStayBehind(modulus: nat)
    requires modulus >= 2
    ensures var s: seq<nat> := [modulus - 1, modulus - 1];
      && Median(s, modulus) == (modulus - 2) as real / 2.0
      && Subtract(s, modulus - 1, modulus) == [0, 0] && Median(Subtract(s, modulus - 1, modulus), modulus) == 0.0
      && Median(Subtract(s, modulus - 1, modulus), modulus) != Median(s, modulus) - (modulus - 1) as real
  {
    var s: seq<nat> := [modulus - 1, modulus - 1];
    MedianCanWrap(modulus);
    NoBorrow(modulus - 1, modulus - 1, modulus);
    assert Subtract(s, modulus - 1, modulus) == [0, 0];
    SmallModulo(0, modulus);
  }
}
