/**
 Order statistics of sorted samples: median, interpolated quantile and the value reported
 as the mode.
 */
module OrderStatistics {
  import opened Modular

  predicate Sorted(s: seq<nat>) {
    forall i, j :: 0 <= i < j < |s| ==> s[i] <= s[j]
  }

  // ---------------------------------------------------------------------------
  // Sorting
  // ---------------------------------------------------------------------------

  function Insert(x: nat, s: seq<nat>): seq<nat> {
    if s == [] || x <= s[0] then [x] + s else [s[0]] + Insert(x, s[1..])
  }

  lemma {:induction false} InsertAdds(x: nat, s: seq<nat>)
    ensures multiset(Insert(x, s)) == multiset(s) + multiset{x}
  {
    if s != [] && x > s[0] {
      InsertAdds(x, s[1..]);
      assert s == [s[0]] + s[1..];
    }
  }

  lemma ConsSorted(x: nat, t: seq<nat>)
    requires Sorted(t) && forall i :: 0 <= i < |t| ==> x <= t[i]
    ensures Sorted([x] + t)
  {
    var u := [x] + t;
    forall i, j | 0 <= i < j < |u| ensures u[i] <= u[j] {
      assert u[j] == t[j - 1];
    }
  }

  lemma InsertBounds(x: nat, s: seq<nat>, y: nat)
    requires y <= x && forall i :: 0 <= i < |s| ==> y <= s[i]
    ensures forall i :: 0 <= i < |Insert(x, s)| ==> y <= Insert(x, s)[i]
  {
    var t := Insert(x, s);
    InsertAdds(x, s);
    forall i | 0 <= i < |t| ensures y <= t[i] {
      assert t[i] in multiset(t);
      assert t[i] == x || t[i] in s;
    }
  }

  lemma {:induction false} InsertSorts(x: nat, s: seq<nat>)
    requires Sorted(s)
    ensures Sorted(Insert(x, s))
  {
    if s == [] || x <= s[0] {
      ConsSorted(x, s);
    } else {
      InsertSorts(x, s[1..]);
      InsertBounds(x, s[1..], s[0]);
      ConsSorted(s[0], Insert(x, s[1..]));
    }
  }

  /** Stands for the library sort; by SortedIsUnique its contract determines the result. */
  function Sort(s: seq<nat>): (r: seq<nat>)
    ensures Sorted(r) && multiset(r) == multiset(s) && |r| == |s|
  {
    if s == [] then []
    else
      var t := Sort(s[1..]);
      InsertSorts(s[0], t);
      InsertAdds(s[0], t);
      assert s == [s[0]] + s[1..];
      assert |multiset(Insert(s[0], t))| == |multiset(s)|;
      Insert(s[0], t)
  }

  lemma HeadIsLeast(s: seq<nat>, y: nat)
    requires Sorted(s) && y in multiset(s)
    ensures s != [] && s[0] <= y
  {
    assert y in s;
  }

  lemma SameHead(s: seq<nat>, t: seq<nat>)
    requires Sorted(s) && Sorted(t) && multiset(s) == multiset(t) && s != []
    ensures t != [] && s[0] == t[0]
  {
    assert s[0] in multiset(s);
    HeadIsLeast(t, s[0]);
    assert t[0] in multiset(t);
    HeadIsLeast(s, t[0]);
  }

  lemma SameTail(s: seq<nat>, t: seq<nat>)
    requires s != [] && t != [] && s[0] == t[0] && multiset(s) == multiset(t)
    ensures multiset(s[1..]) == multiset(t[1..])
  {
    var u, v := s[1..], t[1..];
    assert s == [s[0]] + u;
    assert t == [t[0]] + v;
    assert multiset(u) == multiset(s) - multiset{s[0]};
    assert multiset(v) == multiset(t) - multiset{t[0]};
  }

  lemma SortedTail(s: seq<nat>)
    requires Sorted(s) && s != []
    ensures Sorted(s[1..])
  {
  }

  /** A sorted sequence is determined by its elements, so any sort gives the same result. */
  lemma {:induction false} SortedIsUnique(s: seq<nat>, t: seq<nat>)
    requires Sorted(s) && Sorted(t) && multiset(s) == multiset(t)
    ensures s == t
  {
    if s == [] {
      assert |t| == |multiset(t)|;
    } else {
      SameHead(s, t);
      SameTail(s, t);
      SortedTail(s);
      SortedTail(t);
      SortedIsUnique(s[1..], t[1..]);
      assert s == [s[0]] + s[1..];
      assert t == [t[0]] + t[1..];
    }
  }

  // ---------------------------------------------------------------------------
  // Quantiles
  // ---------------------------------------------------------------------------

  function Mix(a: real, b: real, d: real): real { (1.0 - d) * a + d * b }

  /** Linear interpolation at position `x`. */
  function Interpolate(s: seq<nat>, x: real): real
    requires s != [] && 0.0 <= x <= (|s| - 1) as real
  {
    var lhs := x.Floor;
    var delta := x - lhs as real;
    if lhs == |s| - 1 then s[lhs] as real
    else Mix(s[lhs] as real, s[lhs + 1] as real, delta)
  }

  lemma NonNegativeProduct(a: real, b: real)
    requires a >= 0.0 && b >= 0.0
    ensures a * b >= 0.0
  {
  }

  lemma ScaledOrder(p: real, q: real, m: real)
    requires p <= q && m >= 0.0
    ensures p * m <= q * m
  {
    NonNegativeProduct(q - p, m);
    assert (q - p) * m == q * m - p * m;
  }

  lemma PositionFits(q: real, m: real)
    requires 0.0 <= q <= 1.0 && m >= 0.0
    ensures 0.0 <= q * m <= m
  {
    ScaledOrder(0.0, q, m);
    ScaledOrder(q, 1.0, m);
  }

  /** Where the q-quantile of n samples lies. */
  function Position(n: nat, q: real): (x: real)
    requires n > 0 && 0.0 <= q <= 1.0
    ensures 0.0 <= x <= (n - 1) as real
  {
    PositionFits(q, (n - 1) as real);
    q * (n - 1) as real
  }

  function Quantile(s: seq<nat>, q: real): real
    requires 0.0 <= q <= 1.0
  {
    if s == [] then 0.0 else Interpolate(s, Position(|s|, q))
  }

  /** The median as it is coded: the sum of the two middle samples is a machine word, so
      it wraps at `modulus`. */
  function Median(s: seq<nat>, modulus: nat): real
    requires modulus > 0
  {
    if s == [] then 0.0
    else
      var lhs, rhs := (|s| - 1) / 2, |s| / 2;
      if lhs == rhs then s[lhs] as real else ((s[lhs] + s[rhs]) % modulus) as real / 2.0
  }

  function MiddleSum(s: seq<nat>): nat
    requires s != []
  {
    s[(|s| - 1) / 2] + s[|s| / 2]
  }

  /** The sum of the two middle samples fits a machine word. */
  predicate MiddleFits(s: seq<nat>, modulus: nat) { s == [] || MiddleSum(s) < modulus }

  lemma BlendAsOffset(a: real, b: real, d: real, x: real, g: real, p: real)
    requires x == Mix(a, b, d) && g == b - a && p == d * g
    ensures x == a + p
  {
    var u, v := d * a, d * b;
    assert p == v - u by { assert d * (b - a) == d * b - d * a; }
    assert (1.0 - d) * a == a - u;
  }

  lemma PartOfDistance(d: real, e: real, g: real, p: real, q: real)
    requires d <= e && g >= 0.0 && p == d * g && q == e * g
    ensures p <= q
  {
    NonNegativeProduct(e - d, g);
    assert (e - d) * g == q - p;
  }

  /** Between two neighbours the interpolation grows with the weight of the larger. */
  lemma Blend(a: real, b: real, d: real, e: real)
    requires a <= b && 0.0 <= d <= e <= 1.0
    ensures a <= Mix(a, b, d) <= Mix(a, b, e) <= b
  {
    var g := b - a;
    var p, q := d * g, e * g;
    var x, y := Mix(a, b, d), Mix(a, b, e);
    BlendAsOffset(a, b, d, x, g, p);
    BlendAsOffset(a, b, e, y, g, q);
    PartOfDistance(0.0, d, g, 0.0, p);
    PartOfDistance(d, e, g, p, q);
    PartOfDistance(e, 1.0, g, q, g);
  }

  lemma InterpolateWithin(s: seq<nat>, x: real)
    requires s != [] && Sorted(s) && 0.0 <= x <= (|s| - 1) as real
    ensures s[x.Floor] as real <= Interpolate(s, x)
    ensures x.Floor + 1 < |s| ==> Interpolate(s, x) <= s[x.Floor + 1] as real
    ensures x.Floor + 1 == |s| ==> Interpolate(s, x) == s[x.Floor] as real
  {
    var k := x.Floor;
    if k + 1 < |s| {
      var a, b, d := s[k] as real, s[k + 1] as real, x - k as real;
      Blend(a, b, d, d);
      assert Interpolate(s, x) == Mix(a, b, d);
    }
  }

  lemma InterpolateMonotone(s: seq<nat>, x: real, y: real)
    requires s != [] && Sorted(s) && 0.0 <= x <= y <= (|s| - 1) as real
    ensures Interpolate(s, x) <= Interpolate(s, y)
  {
    var j, k := x.Floor, y.Floor;
    if j == k {
      if k + 1 < |s| {
        Blend(s[k] as real, s[k + 1] as real, x - k as real, y - k as real);
      }
    } else {
      InterpolateWithin(s, x);
      InterpolateWithin(s, y);
      assert s[j + 1] <= s[k];
    }
  }

  lemma PositionMonotone(n: nat, p: real, q: real)
    requires n > 0 && 0.0 <= p <= q <= 1.0
    ensures Position(n, p) <= Position(n, q)
  {
    ScaledOrder(p, q, (n - 1) as real);
  }

  lemma QuantileMonotone(s: seq<nat>, p: real, q: real)
    requires Sorted(s) && 0.0 <= p <= q <= 1.0
    ensures Quantile(s, p) <= Quantile(s, q)
  {
    if s != [] {
      PositionMonotone(|s|, p, q);
      InterpolateMonotone(s, Position(|s|, p), Position(|s|, q));
    }
  }

  /** The quantile at a position k + d lies the part d of the way from sample k to the next. */
  lemma QuantileIs(s: seq<nat>, q: real, k: nat, d: real)
    requires 0.0 <= q <= 1.0 && k + 1 < |s| && 0.0 <= d < 1.0 && q * (|s| - 1) as real == k as real + d
    ensures Quantile(s, q) == s[k] as real + d * (s[k + 1] as real - s[k] as real)
  {
    var a, b := s[k] as real, s[k + 1] as real;
    assert Position(|s|, q) == k as real + d && Position(|s|, q).Floor == k;
    BlendAsOffset(a, b, d, Quantile(s, q), b - a, d * (b - a));
  }

  /** `x` lies at t quarters of the way through s: with 4 * k + m == t * (n - 1), it is m
      quarters of the way from sample k to sample k + 1. */
  predicate AtQuarters(s: seq<nat>, t: nat, x: real)
    requires s != [] && t <= 4
  {
    var p := t * (|s| - 1);
    var k, m := p / 4, p % 4;
    if m == 0 then k < |s| && x == s[k] as real
    else k + 1 < |s| && 4.0 * x == (4 - m) as real * s[k] as real + m as real * s[k + 1] as real
  }

  lemma QuarterOffset(a: real, b: real, m: int, d: real, x: real)
    requires 0 <= m < 4 && d == m as real / 4.0 && x == a + d * (b - a)
    ensures m == 0 ==> x == a
    ensures 4.0 * x == (4 - m) as real * a + m as real * b
  {
  }

  lemma QuarterPosition(n: int, t: int, q: real, k: int, m: int, d: real)
    requires t * n == 4 * k + m && q == t as real / 4.0 && d == m as real / 4.0
    ensures q * n as real == k as real + d
  {
    var x, y := t as real, n as real;
    assert x * y == (t * n) as real;
    assert 4.0 * (q * y) == x * y;
  }

  lemma QuarterAt(s: seq<nat>, t: nat, q: real)
    requires s != [] && (t == 1 || t == 3) && q == t as real / 4.0
    ensures AtQuarters(s, t, Quantile(s, q))
  {
    var p := t * (|s| - 1);
    var k, m := p / 4, p % 4;
    var d := m as real / 4.0;
    QuarterPosition(|s| - 1, t, q, k, m, d);
    if k + 1 < |s| {
      QuantileIs(s, q, k, d);
      QuarterOffset(s[k] as real, s[k + 1] as real, m, d, Quantile(s, q));
    } else {
      assert |s| == 1;
    }
  }

  /** The first and third quartile are where they should be. */
  lemma QuartilesAreAtQuarters(s: seq<nat>)
    requires s != []
    ensures AtQuarters(s, 1, Quantile(s, 0.25)) && AtQuarters(s, 3, Quantile(s, 0.75))
  {
    QuarterAt(s, 1, 0.25);
    QuarterAt(s, 3, 0.75);
  }

  lemma QuantileEnds(s: seq<nat>)
    requires s != []
    ensures Quantile(s, 0.0) == s[0] as real
    ensures Quantile(s, 1.0) == s[|s| - 1] as real
  {
  }

  lemma OddMiddle(s: seq<nat>, k: nat)
    requires |s| == 2 * k + 1
    ensures Quantile(s, 0.5) == s[k] as real
  {
    var x := Position(|s|, 0.5);
    assert x == k as real && x.Floor == k;
  }

  lemma EvenMiddle(s: seq<nat>, k: nat)
    requires |s| == 2 * k + 2
    ensures MiddleSum(s) == s[k] + s[k + 1] && Quantile(s, 0.5) == MiddleSum(s) as real / 2.0
  {
    var x := Position(|s|, 0.5);
    assert (|s| - 1) / 2 == k && |s| / 2 == k + 1;
    assert x == k as real + 0.5 && x.Floor == k;
  }

  lemma FitsExactly(x: nat, modulus: nat)
    requires modulus > 0
    ensures x % modulus == x <==> x < modulus
  {
    if x < modulus { SmallModulo(x, modulus); }
  }

  lemma MedianIsHalfTheSum(s: seq<nat>, modulus: nat)
    requires s != [] && modulus > 0 && |s| % 2 == 0
    ensures 2.0 * Median(s, modulus) == (MiddleSum(s) % modulus) as real
  {
    assert |s| / 2 == (|s| - 1) / 2 + 1;
  }

  /** The separately coded median is the one-half quantile exactly when the sum of the two
      middle samples does not wrap, or there is only one middle sample. */
  lemma MedianIsMiddleQuantile(s: seq<nat>, modulus: nat)
    requires modulus > 0
    ensures Median(s, modulus) == Quantile(s, 0.5) <==> |s| % 2 == 1 || MiddleFits(s, modulus)
  {
    if s != [] {
      var k := (|s| - 1) / 2;
      if |s| % 2 == 1 {
        OddMiddle(s, k);
      } else {
        EvenMiddle(s, k);
        MedianIsHalfTheSum(s, modulus);
        FitsExactly(MiddleSum(s), modulus);
      }
    }
  }

  lemma WrapsDown(x: nat, modulus: nat)
    requires modulus > 0
    ensures x % modulus <= x
  {
    HighLow(x, modulus);
  }

  /** Wrapping can only make the median smaller. */
  lemma MedianAtMostMiddleQuantile(s: seq<nat>, modulus: nat)
    requires modulus > 0
    ensures Median(s, modulus) <= Quantile(s, 0.5)
  {
    if |s| % 2 == 1 || MiddleFits(s, modulus) {
      MedianIsMiddleQuantile(s, modulus);
    } else {
      WrapsDown(MiddleSum(s), modulus);
      MedianIsMiddleQuantile(s, MiddleSum(s) + 1);
      SmallModulo(MiddleSum(s), MiddleSum(s) + 1);
    }
  }

  /** Minimum, quartiles, median and maximum come in order, except that the first quartile is
      above the median if a wrapped middle sum is below twice the first quartile. */
  lemma FiveNumbersInOrder(s: seq<nat>, modulus: nat)
    requires s != [] && Sorted(s) && modulus > 0
    ensures s[0] as real <= Quantile(s, 0.25)
    ensures Quantile(s, 0.25) <= Median(s, modulus)
      <==> |s| % 2 == 1 || (MiddleSum(s) % modulus) as real >= 2.0 * Quantile(s, 0.25)
    ensures MiddleFits(s, modulus) ==> Quantile(s, 0.25) <= Median(s, modulus)
    ensures Median(s, modulus) <= Quantile(s, 0.75) <= s[|s| - 1] as real
  {
    QuantileEnds(s);
    QuantileMonotone(s, 0.0, 0.25);
    QuantileMonotone(s, 0.25, 0.5);
    QuantileMonotone(s, 0.5, 0.75);
    QuantileMonotone(s, 0.75, 1.0);
    MedianIsMiddleQuantile(s, modulus);
    MedianAtMostMiddleQuantile(s, modulus);
    if |s| % 2 == 0 { MedianIsHalfTheSum(s, modulus); }
  }

  /** Two samples of the largest word: their median falls below the quartile and the
      0.5-quantile, whatever the word size. */
  lemma MedianCanWrap(modulus: nat)
    requires modulus >= 2
    ensures var s: seq<nat> := [modulus - 1, modulus - 1];
      && Median(s, modulus) == (modulus - 2) as real / 2.0
      && Quantile(s, 0.5) == Quantile(s, 0.25) == (modulus - 1) as real
      && Median(s, modulus) < Quantile(s, 0.25)
  {
    var s: seq<nat> := [modulus - 1, modulus - 1];
    DivideBy(MiddleSum(s), modulus, 1, modulus - 2);
    BlendAsOffset(s[0] as real, s[1] as real, 0.25, Quantile(s, 0.25), 0.0, 0.0);
    BlendAsOffset(s[0] as real, s[1] as real, 0.5, Quantile(s, 0.5), 0.0, 0.0);
  }

  /** A middle sum may wrap without putting the five numbers out of order. */
  lemma WrappedInOrder()
    ensures var s: seq<nat> := [0, 0, 0, 4, 6, 7, 7, 7];
      Sorted(s) && !MiddleFits(s, 8) && Quantile(s, 0.25) <= Median(s, 8)
  {
    var s: seq<nat> := [0, 0, 0, 4, 6, 7, 7, 7];
    assert Position(8, 0.25) == 1.75 && (1.75 as real).Floor == 1;
    assert Quantile(s, 0.25) == 0.0;
  }

  // ---------------------------------------------------------------------------
  // The mode
  // ---------------------------------------------------------------------------

  /** How often `v` occurs. */
  function Count(s: seq<nat>, v: nat): nat { multiset(s)[v] }

  /** `m` is the smallest among the most frequent values below `top`. */
  ghost predicate MostFrequentBelow(s: seq<nat>, top: nat, m: nat) {
    && m in s && m < top
    && (forall v :: v in s && v < top ==> Count(s, v) <= Count(s, m))
    && (forall v :: v in s && v < top && Count(s, v) == Count(s, m) ==> m <= v)
  }

  /** What the coded mode returns on sorted data: the only value there is, or else the
      smallest most frequent value other than the largest. */
  ghost predicate ReportedMode(s: seq<nat>, m: nat) {
    if s == [] then m == 0
    else if s[0] == s[|s| - 1] then m == s[0]
    else MostFrequentBelow(s, s[|s| - 1], m)
  }

  /** A value as frequent as any other. */
  ghost predicate TrueMode(s: seq<nat>, m: nat) {
    m in s && forall v :: v in s ==> Count(s, v) <= Count(s, m)
  }

  lemma CountAppend(s: seq<nat>, x: nat, v: nat)
    ensures Count(s + [x], v) == Count(s, v) + if v == x then 1 else 0
  {
  }

  /** The state of the search after `i` samples: `cur` is the run being counted and the
      best of the finished runs, if any, is kept. */
  ghost predicate Searching(p: seq<nat>, cur: nat, curFreq: nat, mode: nat, modeFreq: nat) {
    && p != [] && cur == p[|p| - 1] && curFreq == Count(p, cur)
    && (modeFreq == 0 ==> mode == p[0] == cur)
    && (modeFreq > 0 ==> MostFrequentBelow(p, cur, mode) && modeFreq == Count(p, mode))
  }

  lemma SearchStays(p: seq<nat>, cur: nat, curFreq: nat, mode: nat, modeFreq: nat)
    requires Sorted(p) && Searching(p, cur, curFreq, mode, modeFreq)
    ensures Searching(p + [cur], cur, curFreq + 1, mode, modeFreq)
  {
    var q := p + [cur];
    forall v ensures Count(q, v) == Count(p, v) + if v == cur then 1 else 0 {
      CountAppend(p, cur, v);
    }
    forall v | v in q && v < cur ensures v in p {
    }
  }

  lemma BoundedByLast(s: seq<nat>, v: nat)
    requires Sorted(s) && v in s
    ensures s[0] <= v <= s[|s| - 1]
  {
  }

  /** Below a new, larger value the counts are the old ones, and the old last value joins
      the candidates. */
  lemma CandidatesGrow(p: seq<nat>, x: nat, v: nat)
    requires p != [] && Sorted(p) && p[|p| - 1] < x
    ensures Count(p + [x], x) == 1
    ensures v != x ==> Count(p + [x], v) == Count(p, v)
    ensures v < x && v in p + [x] ==> v in p && p[0] <= v <= p[|p| - 1]
  {
    CountAppend(p, x, v);
    CountAppend(p, x, x);
    if x in p {
      BoundedByLast(p, x);
    }
    if v in p {
      BoundedByLast(p, v);
    }
  }

  /** The best of the finished runs stays best once the current run is finished too. */
  lemma BestSoFar(p: seq<nat>, x: nat, best: nat)
    requires p != [] && Sorted(p) && p[|p| - 1] < x && best in p
    requires forall v :: v in p ==> Count(p, v) <= Count(p, best)
    requires forall v :: v in p && Count(p, v) == Count(p, best) ==> best <= v
    ensures MostFrequentBelow(p + [x], x, best)
  {
    var q := p + [x];
    assert best in q;
    CandidatesGrow(p, x, best);
    forall v | v in q && v < x
      ensures v in p && Count(q, v) == Count(p, v)
    {
      CandidatesGrow(p, x, v);
    }
  }

  lemma SearchMoves(p: seq<nat>, cur: nat, curFreq: nat, mode: nat, modeFreq: nat, x: nat)
    requires Sorted(p) && Searching(p, cur, curFreq, mode, modeFreq) && cur < x
    ensures var better := curFreq > modeFreq;
            Searching(p + [x], x, 1, if better then cur else mode, if better then curFreq else modeFreq)
  {
    var best := if curFreq > modeFreq then cur else mode;
    forall v | v in p
      ensures Count(p, v) <= Count(p, best)
      ensures Count(p, v) == Count(p, best) ==> best <= v
    {
      BoundedByLast(p, v);
    }
    assert cur in p && Count(p, cur) > 0;
    BestSoFar(p, x, best);
    CandidatesGrow(p, x, best);
  }

  lemma SearchBegins(s: seq<nat>)
    requires s != []
    ensures Searching(s[..1], s[0], 1, s[0], 0)
  {
    assert s[..1] == [s[0]];
  }

  lemma SearchStep(s: seq<nat>, i: nat, cur: nat, curFreq: nat, mode: nat, modeFreq: nat)
    requires Sorted(s) && 0 < i < |s| && Searching(s[..i], cur, curFreq, mode, modeFreq)
    ensures cur == s[i] ==> Searching(s[..i + 1], cur, curFreq + 1, mode, modeFreq)
    ensures cur != s[i] && curFreq > modeFreq ==> Searching(s[..i + 1], s[i], 1, cur, curFreq)
    ensures cur != s[i] && curFreq <= modeFreq ==> Searching(s[..i + 1], s[i], 1, mode, modeFreq)
  {
    assert s[..i + 1] == s[..i] + [s[i]];
    if cur == s[i] {
      SearchStays(s[..i], cur, curFreq, mode, modeFreq);
    } else {
      SearchMoves(s[..i], cur, curFreq, mode, modeFreq, s[i]);
    }
  }

  lemma SearchEnds(s: seq<nat>, cur: nat, curFreq: nat, mode: nat, modeFreq: nat)
    requires Sorted(s) && Searching(s, cur, curFreq, mode, modeFreq)
    ensures ReportedMode(s, mode)
  {
    if modeFreq > 0 {
      BoundedByLast(s, mode);
    }
  }

  method ResultsMode(s: seq<nat>) returns (mode: nat)
    requires Sorted(s)
    ensures ReportedMode(s, mode)
  {
    if |s| == 0 {
      return 0;
    } else if |s| == 1 {
      return s[0];
    }
    mode := s[0];
    var current, currentFreq, modeFreq := s[0], 1, 0;
    SearchBegins(s);
    for i := 1 to |s|
      invariant Searching(s[..i], current, currentFreq, mode, modeFreq)
    {
      SearchStep(s, i, current, currentFreq, mode, modeFreq);
      if current == s[i] {
        currentFreq := currentFreq + 1;
      } else {
        if currentFreq > modeFreq {
          modeFreq, mode := currentFreq, current;
        }
        current, currentFreq := s[i], 1;
      }
    }
    assert s[..|s|] == s;
    SearchEnds(s, current, currentFreq, mode, modeFreq);
  }

  /** The contract leaves no choice. */
  lemma ReportedModeIsUnique(s: seq<nat>, m: nat, k: nat)
    requires ReportedMode(s, m) && ReportedMode(s, k)
    ensures m == k
  {
  }

  /** The reported value is a true mode exactly when there is one value only, or some value
      other than the largest occurs at least as often as the largest: the last run of equal
      samples is never compared. */
  lemma WhenModeIsTrue(s: seq<nat>, m: nat)
    requires s != [] && Sorted(s) && ReportedMode(s, m)
    ensures TrueMode(s, m) <==>
            s[0] == s[|s| - 1] || exists v :: v in s && v != s[|s| - 1] && Count(s, v) >= Count(s, s[|s| - 1])
  {
    var top := s[|s| - 1];
    forall v | v in s ensures s[0] <= v <= top {
      BoundedByLast(s, v);
    }
    assert top in s;
    if s[0] != top && TrueMode(s, m) {
      assert m in s && m != top && Count(s, m) >= Count(s, top);
    }
  }

  /** A set of samples whose most frequent value is not reported. */
  lemma ModeCanBeMissed()
    ensures var s: seq<nat> := [1, 2, 2];
            Sorted(s) && ReportedMode(s, 1) && !TrueMode(s, 1)
  {
    var s: seq<nat> := [1, 2, 2];
    assert Count(s, 1) == 1 && Count(s, 2) == 2;
    assert 2 in s;
  }
}
