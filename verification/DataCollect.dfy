/**
 Early processing: instead of storing samples, the measuring loop adds each counted sample
 and its square to two running sums, in machine words and without a branch.
 */
module DataCollect {
  import opened Modular
  import opened Sums
  import opened Statistics
  import opened OrderStatistics
  import opened Processing

  // ---------------------------------------------------------------------------
  // The branch-free test
  // ---------------------------------------------------------------------------

  /** `half` is half the range of a machine word, so a word is a number below 2 * half. */
  function IsCounted(i: int, n: int, half: int): int
    requires half > 0
  {
    var distance := (i - n) % (2 * half);
    var complement := 2 * half - 1 - distance;
    complement / half
  }

  lemma TopBit(x: int, half: int)
    requires half > 0 && 0 <= x < 2 * half
    ensures x / half == if x >= half then 1 else 0
  {
    if x >= half { DivideBy(x, half, 1, x - half); } else { DivideBy(x, half, 0, x); }
  }

  /** The top bit of the complement of i - n is the test i >= n exactly when the words i and n
      are less than half the word range apart. */
  lemma MaskIsTest(i: int, n: int, half: int)
    requires half > 0 && 0 <= i < 2 * half && 0 <= n < 2 * half
    ensures IsCounted(i, n, half) == (if i >= n then 1 else 0) <==> 0 - half <= i - n < half
  {
    var w := 2 * half;
    if i >= n { DivideBy(i - n, w, 0, i - n); } else { DivideBy(i - n, w, -1, i - n + w); }
    TopBit(w - 1 - (i - n) % w, half);
  }

  // ---------------------------------------------------------------------------
  // The accumulation loop
  // ---------------------------------------------------------------------------

  /** The adjusted sample of one run, in machine words. */
  function Adjusted(start: int, end: int, overhead: int, modulus: int): nat
    requires modulus > 0
  {
    (end - start - overhead) % modulus
  }

  /** It is the word congruent to the time between the stamps less the overhead, and that time
      itself if it is a word. */
  lemma AdjustedIsDifference(start: int, end: int, overhead: int, modulus: int)
    requires modulus > 0
    ensures Adjusted(start, end, overhead, modulus) < modulus
    ensures exists q :: Adjusted(start, end, overhead, modulus) == end - start - overhead - q * modulus
    ensures 0 <= end - start - overhead < modulus ==>
      Adjusted(start, end, overhead, modulus) == end - start - overhead
  {
    var x := end - start - overhead;
    var q := x / modulus;
    assert x == q * modulus + x % modulus;
    assert Adjusted(start, end, overhead, modulus) == x - q * modulus;
    if 0 <= x < modulus { SmallModulo(x, modulus); }
  }

  /** The time between the stamps less the overhead, added up over runs ignored .. n. */
  function TotalTime(starts: seq<nat>, ends: seq<nat>, ignored: nat, overhead: nat, n: nat): int
    requires |starts| == |ends| && n <= |starts|
  {
    if n <= ignored then 0
    else TotalTime(starts, ends, ignored, overhead, n - 1) + (ends[n - 1] - starts[n - 1] - overhead)
  }

  function TotalSquares(starts: seq<nat>, ends: seq<nat>, ignored: nat, overhead: nat, n: nat): int
    requires |starts| == |ends| && n <= |starts|
  {
    if n <= ignored then 0
    else
      TotalSquares(starts, ends, ignored, overhead, n - 1) + Square(ends[n - 1] - starts[n - 1] - overhead)
  }

  function AdjustedSamples(starts: seq<nat>, ends: seq<nat>, overhead: nat, modulus: nat): (r: seq<nat>)
    requires |starts| == |ends| && modulus > 0
    ensures |r| == |starts|
    ensures forall i :: 0 <= i < |r| ==> r[i] == Adjusted(starts[i], ends[i], overhead, modulus)
  {
    seq(|starts|, i requires 0 <= i < |starts| => Adjusted(starts[i], ends[i], overhead, modulus))
  }

  /** The adjusted samples of the runs that are not ignored. */
  function Kept(starts: seq<nat>, ends: seq<nat>, ignored: nat, overhead: nat, modulus: nat): (k: seq<nat>)
    requires |starts| == |ends| && modulus > 0
    ensures |k| == if ignored <= |starts| then |starts| - ignored else 0
  {
    if ignored < |starts| then AdjustedSamples(starts[ignored..], ends[ignored..], overhead, modulus) else []
  }

  lemma AddReduced(x: int, y: int, modulus: int)
    requires modulus > 0
    ensures AddWord(x % modulus, y % modulus, modulus) == (x + y) % modulus
  {
    assert x == (x / modulus) * modulus + x % modulus;
    assert y == (y / modulus) * modulus + y % modulus;
    ModuloShift(x % modulus + y % modulus, x / modulus, modulus);
    ModuloShift(x + y % modulus, y / modulus, modulus);
  }

  lemma SquareOfSum(a: int, b: int)
    ensures Square(a + b) == a * a + 2 * (a * b) + b * b
  {
  }

  lemma Regroup(q: int, r: int, m: int)
    ensures (q * m) * (q * m) + 2 * ((q * m) * r) == (q * (q * m) + 2 * (q * r)) * m
  {
    assert (q * m) * (q * m) == (q * (q * m)) * m;
    assert (q * m) * r == (q * r) * m;
  }

  /** Squares of congruent numbers are congruent. */
  lemma SquareReduced(x: int, modulus: int)
    requires modulus > 0
    ensures Square(x % modulus) % modulus == Square(x) % modulus
  {
    var q, r := x / modulus, x % modulus;
    assert x == q * modulus + r;
    SquareOfSum(q * modulus, r);
    var y := q * (q * modulus) + 2 * (q * r);
    assert Square(x) == r * r + y * modulus by { Regroup(q, r, modulus); }
    ModuloShift(r * r, y, modulus);
  }

  /** Congruent terms give congruent sums. */
  lemma CongruentSums(a: int, b: int, x: int, y: int, modulus: int)
    requires modulus > 0 && a % modulus == b % modulus && x % modulus == y % modulus
    ensures (a + x) % modulus == (b + y) % modulus
  {
    AddReduced(a, x, modulus);
    AddReduced(b, y, modulus);
  }

  predicate Congruent(a: int, b: int, modulus: int)
    requires modulus > 0
  {
    a % modulus == b % modulus
  }

  /** One more counted run: its adjusted sample against the plain time. */
  lemma OneMoreTime(a: int, b: int, start: int, end: int, overhead: int, modulus: int)
    requires modulus > 0 && Congruent(a, b, modulus)
    ensures Congruent(a + Adjusted(start, end, overhead, modulus), b + (end - start - overhead), modulus)
  {
    var x := end - start - overhead;
    SmallModulo(x % modulus, modulus);
    CongruentSums(a, b, x % modulus, x, modulus);
  }

  lemma OneMoreSquare(a: int, b: int, start: int, end: int, overhead: int, modulus: int)
    requires modulus > 0 && Congruent(a, b, modulus)
    ensures var sample := Adjusted(start, end, overhead, modulus);
      Congruent(a + sample * sample, b + Square(end - start - overhead), modulus)
  {
    var x := end - start - overhead;
    SquareReduced(x, modulus);
    CongruentSums(a, b, Square(x % modulus), Square(x), modulus);
  }

  lemma OneMoreKept(k: seq<nat>, i: nat)
    requires i < |k|
    ensures Sum(k[..i + 1]) == Sum(k[..i]) + k[i]
    ensures SumOfSquares(k[..i + 1]) == SumOfSquares(k[..i]) + k[i] * k[i]
  {
    assert k[..i + 1][..i] == k[..i];
  }

  /** How many of the first n runs are kept. */
  function NumKept(ignored: nat, n: nat): nat { if n <= ignored then 0 else n - ignored }

  /** The kept samples and the plain times have the same sum modulo the word range. */
  lemma {:induction false} PlainSum(starts: seq<nat>, ends: seq<nat>, ignored: nat, overhead: nat, modulus: nat, n: nat)
    requires |starts| == |ends| && n <= |starts| && modulus > 0
    ensures Congruent(Sum(Kept(starts, ends, ignored, overhead, modulus)[..NumKept(ignored, n)]),
                      TotalTime(starts, ends, ignored, overhead, n), modulus)
    decreases n
  {
    if n > ignored {
      var kept, i := Kept(starts, ends, ignored, overhead, modulus), n - 1 - ignored;
      PlainSum(starts, ends, ignored, overhead, modulus, n - 1);
      OneMoreKept(kept, i);
      OneMoreTime(Sum(kept[..i]), TotalTime(starts, ends, ignored, overhead, n - 1),
                  starts[n - 1], ends[n - 1], overhead, modulus);
    }
  }

  /** And the same sum of squares. */
  lemma {:induction false} PlainSquares(
    starts: seq<nat>, ends: seq<nat>, ignored: nat, overhead: nat, modulus: nat, n: nat)
    requires |starts| == |ends| && n <= |starts| && modulus > 0
    ensures Congruent(SumOfSquares(Kept(starts, ends, ignored, overhead, modulus)[..NumKept(ignored, n)]),
                      TotalSquares(starts, ends, ignored, overhead, n), modulus)
    decreases n
  {
    if n > ignored {
      var kept, i := Kept(starts, ends, ignored, overhead, modulus), n - 1 - ignored;
      PlainSquares(starts, ends, ignored, overhead, modulus, n - 1);
      OneMoreKept(kept, i);
      OneMoreSquare(SumOfSquares(kept[..i]), TotalSquares(starts, ends, ignored, overhead, n - 1),
                    starts[n - 1], ends[n - 1], overhead, modulus);
    }
  }

  /** The loop around the accumulation macro: whatever wraps, the sums are those of exactly
      the samples that are not ignored, and of the plain times and their squares, modulo the
      word range. */
  method AccumulateSums(starts: seq<nat>, ends: seq<nat>, ignored: nat, overhead: nat, half: nat, modulus: nat)
    returns (sum: nat, sum2: nat)
    requires |starts| == |ends| && modulus > 0 && half > 0
    requires |starts| <= half && ignored <= half  // run counters are far below the word range
    ensures sum == Sum(Kept(starts, ends, ignored, overhead, modulus)) % modulus
    ensures sum2 == SumOfSquares(Kept(starts, ends, ignored, overhead, modulus)) % modulus
    ensures sum == TotalTime(starts, ends, ignored, overhead, |starts|) % modulus
    ensures sum2 == TotalSquares(starts, ends, ignored, overhead, |starts|) % modulus
  {
    ghost var k := Kept(starts, ends, ignored, overhead, modulus);
    sum, sum2 := 0, 0;
    ghost var done := 0;
    for i := 0 to |starts|
      invariant done == if i <= ignored then 0 else i - ignored
      invariant done <= |k|
      invariant sum == Sum(k[..done]) % modulus
      invariant sum2 == SumOfSquares(k[..done]) % modulus
    {
      MaskIsTest(i, ignored, half);
      var isCounted := IsCounted(i, ignored, half);
      var sample := isCounted * Adjusted(starts[i], ends[i], overhead, modulus);
      SmallModulo(sample, modulus);
      AddReduced(Sum(k[..done]), sample, modulus);
      AddReduced(SumOfSquares(k[..done]), sample * sample, modulus);
      if i >= ignored {
        OneMoreKept(k, done);
        done := done + 1;
      }
      sum := AddWord(sum, sample, modulus);
      sum2 := AddWord(sum2, sample * sample % modulus, modulus);
    }
    assert k[..done] == k;
    PlainSum(starts, ends, ignored, overhead, modulus, |starts|);
    PlainSquares(starts, ends, ignored, overhead, modulus, |starts|);
    assert k[..NumKept(ignored, |starts|)] == k;
  }

  // ---------------------------------------------------------------------------
  // When nothing wraps
  // ---------------------------------------------------------------------------

  predicate BoundedBy(k: seq<nat>, m: nat) { forall i :: 0 <= i < |k| ==> k[i] <= m }

  lemma SquareBound(x: nat, m: nat)
    requires x <= m
    ensures x * x <= m * m
  {
    ProductMonotone(x, x, m);
    ProductMonotone(m, x, m);
  }

  lemma {:induction false} SumsBounded(k: seq<nat>, m: nat, y: nat)
    requires BoundedBy(k, m) && y == m * m
    ensures Sum(k) <= |k| * m && SumOfSquares(k) <= |k| * y
    decreases |k|
  {
    if k != [] {
      SumsBounded(k[..|k| - 1], m, y);
      SquareBound(k[|k| - 1], m);
      OneMoreOf(|k|, m);
      OneMoreOf(|k|, y);
    }
  }

  lemma SumsFit(k: seq<nat>, m: nat, y: nat, modulus: nat)
    requires m >= 1 && BoundedBy(k, m) && y == m * m && |k| * y < modulus
    ensures Sum(k) < modulus && SumOfSquares(k) < modulus
  {
    SumsBounded(k, m, y);
    ProductMonotone(m, 1, m);
    ProductMonotone(|k|, m, y);
  }

  /** If count * m^2 is below the word range for samples bounded by m >= 1, both sums are exact. */
  lemma SumsAreExact(k: seq<nat>, m: nat, modulus: nat)
    requires m >= 1 && BoundedBy(k, m) && |k| * (m * m) < modulus
    ensures Sum(k) % modulus == Sum(k) && SumOfSquares(k) % modulus == SumOfSquares(k)
  {
    SumsFit(k, m, m * m, modulus);
    SmallModulo(Sum(k), modulus);
    SmallModulo(SumOfSquares(k), modulus);
  }

  /** If every time that is not ignored is a word, the kept samples are those times. */
  lemma KeptAreTimes(starts: seq<nat>, ends: seq<nat>, ignored: nat, overhead: nat, modulus: nat)
    requires |starts| == |ends| && ignored < |starts| && modulus > 0
    requires forall i :: ignored <= i < |starts| ==> 0 <= ends[i] - starts[i] - overhead < modulus
    ensures forall i :: ignored <= i < |starts| ==>
      Kept(starts, ends, ignored, overhead, modulus)[i - ignored] == ends[i] - starts[i] - overhead
  {
    forall i | ignored <= i < |starts|
      ensures Kept(starts, ends, ignored, overhead, modulus)[i - ignored] == ends[i] - starts[i] - overhead
    {
      AdjustedIsDifference(starts[i], ends[i], overhead, modulus);
    }
  }

  /** Then their sum is the total time. */
  lemma {:induction false} SumIsTotalTime(
    starts: seq<nat>, ends: seq<nat>, ignored: nat, overhead: nat, modulus: nat, n: nat)
    requires |starts| == |ends| && ignored < n <= |starts| && modulus > 0
    requires forall i :: ignored <= i < |starts| ==> 0 <= ends[i] - starts[i] - overhead < modulus
    ensures Sum(Kept(starts, ends, ignored, overhead, modulus)[..n - ignored])
         == TotalTime(starts, ends, ignored, overhead, n)
    decreases n
  {
    var k := Kept(starts, ends, ignored, overhead, modulus);
    AdjustedIsDifference(starts[n - 1], ends[n - 1], overhead, modulus);
    var i := n - 1 - ignored;
    SumAppend(k[..i], k[i]);
    assert k[..i + 1] == k[..i] + [k[i]];
    assert k[i] == Adjusted(starts[n - 1], ends[n - 1], overhead, modulus);
    if n - 1 > ignored {
      SumIsTotalTime(starts, ends, ignored, overhead, modulus, n - 1);
    } else {
      assert k[..0] == [];
    }
  }

  // ---------------------------------------------------------------------------
  // The overhead to subtract
  // ---------------------------------------------------------------------------

  /** The least measured overhead, or the largest word if there is none. */
  method GetMinOverhead(overhead: seq<nat>, modulus: nat) returns (min: nat)
    requires modulus > 0
    ensures min <= modulus - 1 && forall i :: 0 <= i < |overhead| ==> min <= overhead[i]
    ensures min == modulus - 1 || min in overhead
  {
    min := modulus - 1;
    for i := 0 to |overhead|
      invariant min <= modulus - 1 && forall j :: 0 <= j < i ==> min <= overhead[j]
      invariant min == modulus - 1 || min in overhead
    {
      min := if overhead[i] < min then overhead[i] else min;
    }
  }

  // ---------------------------------------------------------------------------
  // Early and late processing of the same runs
  // ---------------------------------------------------------------------------

  /** What the late form stores for each run before processing. */
  function RawSamples(starts: seq<nat>, ends: seq<nat>, modulus: nat): (r: seq<nat>)
    requires |starts| == |ends| && modulus > 0
    ensures |r| == |starts|
  {
    AdjustedSamples(starts, ends, 0, modulus)
  }

  lemma SameSample(start: nat, end: nat, overhead: nat, modulus: nat)
    requires modulus > 0
    ensures SubtractWord(Adjusted(start, end, 0, modulus), overhead, modulus) == Adjusted(start, end, overhead, modulus)
  {
    var x: int := end as int - start as int;
    assert x == (x / modulus) * modulus + x % modulus;
    ModuloShift(x % modulus - overhead, x / modulus, modulus);
  }

  /** The late form, after dropping the ignored prefix and subtracting the same overhead,
      works on exactly the samples the early form has summed. */
  lemma SameSamples(starts: seq<nat>, ends: seq<nat>, ignored: nat, overhead: nat, modulus: nat)
    requires |starts| == |ends| && ignored <= |starts| && modulus > 0
    ensures Subtract(RawSamples(starts, ends, modulus)[ignored..], overhead, modulus)
         == Kept(starts, ends, ignored, overhead, modulus)
  {
    var l, k := Subtract(RawSamples(starts, ends, modulus)[ignored..], overhead, modulus),
                Kept(starts, ends, ignored, overhead, modulus);
    forall i | 0 <= i < |k| ensures l[i] == k[i] {
      var j := ignored + i;
      assert RawSamples(starts, ends, modulus)[ignored..][i] == Adjusted(starts[j], ends[j], 0, modulus);
      SameSample(starts[j], ends[j], overhead, modulus);
    }
  }

  /** Taking one element out of a sequence. */
  function Without(s: seq<nat>, j: nat): seq<nat>
    requires j < |s|
  {
    s[..j] + s[j + 1..]
  }

  lemma ElementsWithout(s: seq<nat>, j: nat)
    requires j < |s|
    ensures multiset(s) == multiset(Without(s, j)) + multiset{s[j]}
  {
    assert s == s[..j] + [s[j]] + s[j + 1..];
  }

  lemma {:induction false} SumsWithout(s: seq<nat>, j: nat, y: nat)
    requires j < |s| && y == s[j] * s[j]
    ensures Sum(s) == Sum(Without(s, j)) + s[j]
    ensures SumOfSquares(s) == SumOfSquares(Without(s, j)) + y
    decreases |s|
  {
    var n := |s| - 1;
    var z := s[n] * s[n];
    AppendOne(s[..n], s[n], z);
    assert s == s[..n] + [s[n]];
    if j == n {
      assert Without(s, j) == s[..n];
    } else {
      SumsWithout(s[..n], j, y);
      AppendOne(Without(s[..n], j), s[n], z);
      assert Without(s, j) == Without(s[..n], j) + [s[n]];
    }
  }

  lemma CancelOne(a: multiset<nat>, b: multiset<nat>, x: nat)
    requires a + multiset{x} == b + multiset{x}
    ensures a == b
  {
    assert a == (a + multiset{x}) - multiset{x};
    assert b == (b + multiset{x}) - multiset{x};
  }

  /** The sums depend on the elements only, not on their order. */
  lemma {:induction false} SumsOfElements(s: seq<nat>, t: seq<nat>)
    requires multiset(s) == multiset(t)
    ensures Sum(s) == Sum(t) && SumOfSquares(s) == SumOfSquares(t)
    decreases |s|
  {
    if s == [] {
      assert |multiset(t)| == 0;
    } else {
      var n := |s| - 1;
      assert s[n] in multiset(t);
      var j :| 0 <= j < |t| && t[j] == s[n];
      SumsWithout(s, n, s[n] * s[n]);
      SumsWithout(t, j, s[n] * s[n]);
      ElementsWithout(s, n);
      ElementsWithout(t, j);
      CancelOne(multiset(Without(s, n)), multiset(Without(t, j)), s[n]);
      SumsOfElements(Without(s, n), Without(t, j));
    }
  }

  // ---------------------------------------------------------------------------
  // Different overheads
  // ---------------------------------------------------------------------------

  /** The least of all measured overheads, which early processing subtracts, is at most the
      least of those after an ignored prefix, which late processing subtracts. */
  lemma EarlyOverheadIsLeast(overheads: seq<nat>, ignored: nat, early: nat, late: nat)
    requires ignored <= |overheads| && late in overheads[ignored..]
    requires forall i :: 0 <= i < |overheads| ==> early <= overheads[i]
    ensures early <= late
  {
    var i :| 0 <= i < |overheads[ignored..]| && overheads[ignored..][i] == late;
    assert overheads[ignored + i] == late;
  }

  lemma AdjustedMoves(start: nat, end: nat, from: nat, to: nat, modulus: nat)
    requires modulus > 0 && 0 <= Adjusted(start, end, from, modulus) as int + from as int - to as int < modulus
    ensures Adjusted(start, end, to, modulus) as int == Adjusted(start, end, from, modulus) as int + from as int - to as int
  {
    var x := end as int - start as int - from as int;
    var d := from as int - to as int;
    assert x == (x / modulus) * modulus + x % modulus;
    ModuloShift(x % modulus + d, x / modulus, modulus);
    SmallModulo(x % modulus + d, modulus);
  }

  /** Every sample of the early form is still a word when taken with the late overhead. */
  predicate NoBorrowBetween(k: seq<nat>, early: int, late: int, modulus: int) {
    forall i :: 0 <= i < |k| ==> 0 <= k[i] + early - late < modulus
  }

  lemma KeptMoves(starts: seq<nat>, ends: seq<nat>, ignored: nat, early: nat, late: nat, modulus: nat)
    requires |starts| == |ends| && ignored < |starts| && modulus > 0
    requires NoBorrowBetween(Kept(starts, ends, ignored, early, modulus), early, late, modulus)
    ensures var k, l := Kept(starts, ends, ignored, early, modulus), Kept(starts, ends, ignored, late, modulus);
      forall i :: 0 <= i < |k| ==> l[i] == k[i] + early - late
  {
    var k, l := Kept(starts, ends, ignored, early, modulus), Kept(starts, ends, ignored, late, modulus);
    forall i | 0 <= i < |k| ensures l[i] == k[i] + early - late {
      AdjustedMoves(starts[ignored + i], ends[ignored + i], early, late, modulus);
    }
  }

  lemma MomentsShift(k: seq<nat>, l: seq<nat>, d: nat)
    requires k != [] && |l| == |k| && (forall i :: 0 <= i < |k| ==> k[i] == l[i] + d)
    ensures LateMean(Sort(l)) == LateMean(Sort(k)) - d
    ensures LateVariance(Sort(l)) == LateVariance(Sort(k))
  {
    assert l == Shift(k, d);
    SortShift(k, d);
    ShiftMean(Sort(k), d);
    ShiftVariance(Sort(k), d);
  }

  /** Samples that differ by a constant have means that differ by it and the same variance. */
  lemma MomentsDiffer(k: seq<nat>, l: seq<nat>, early: nat, late: nat)
    requires k != [] && |l| == |k| && (forall i :: 0 <= i < |k| ==> l[i] == k[i] + early - late)
    ensures LateMean(Sort(l)) == LateMean(Sort(k)) + early - late
    ensures LateVariance(Sort(l)) == LateVariance(Sort(k))
  {
    if late >= early {
      MomentsShift(k, l, late - early);
    } else {
      MomentsShift(l, k, early - late);
    }
  }

  /** End to end, on the same runs and ignored prefix: the result early processing derives
      from its two sums agrees with the one late processing computes from the stored samples,
      up to 0 or 1 in the mean, corrected by the difference of the two overheads, and
      [-1/2, 3/2) in the variance. The early sums must not wrap and no sample may borrow. */
  lemma EarlyAgreesWithLate(
    starts: seq<nat>, ends: seq<nat>, ignored: nat, early: nat, late: nat, modulus: nat, m: nat,
    sum: nat, sum2: nat, r: Result)
    requires |starts| == |ends| && ignored < |starts| && modulus > 0
    requires var k := Kept(starts, ends, ignored, early, modulus);
             && m >= 1 && BoundedBy(k, m) && |k| * (m * m) < modulus
             && sum == Sum(k) % modulus && sum2 == SumOfSquares(k) % modulus
             && NoBorrowBetween(k, early, late, modulus)
    requires Summarises(Subtract(RawSamples(starts, ends, modulus)[ignored..], late, modulus), modulus, r)
    ensures var num := |starts| - ignored;
            var mean := EarlyMean(num, sum);
            && (r.mean - (mean - (late - early)) == 0 || r.mean - (mean - (late - early)) == 1)
            && -0.5 <= EarlyVariance(num, sum, sum2, mean) - r.variance as real < 1.5
            && r.samples == num
  {
    var k, l := Kept(starts, ends, ignored, early, modulus), Kept(starts, ends, ignored, late, modulus);
    SameSamples(starts, ends, ignored, late, modulus);
    KeptMoves(starts, ends, ignored, early, late, modulus);
    MomentsDiffer(k, l, early, late);
    SumsAreExact(k, m, modulus);
    SumsOfElements(Sort(k), k);
    MeansAgree(Sort(k));
    VariancesAgree(Sort(k));
  }
}
