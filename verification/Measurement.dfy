/**
 From protocol to statistics: what the two ways of processing make of one and the same run of
 the signal benchmark.
 */
module Measurement {
  import opened Sums
  import opened Statistics
  import opened Processing
  import opened DataCollect
  import Signal

  /** Samples as they are stored, in machine words. */
  function StoredWords(samples: seq<int>, modulus: nat): (w: seq<nat>)
    requires modulus > 0
    ensures |w| == |samples|
    ensures forall i :: 0 <= i < |w| ==> w[i] == Adjusted(0, samples[i], 0, modulus)
  {
    seq(|samples|, i requires 0 <= i < |samples| => Adjusted(0, samples[i], 0, modulus))
  }

  ghost predicate IsFinishedRun(c: Signal.Config, run: seq<Signal.State>, last: Signal.State) {
    && Signal.IsRun(c, run) && last == run[|run| - 1]
    && forall a :: !Signal.Enabled(c, last, a)
  }

  /** The samples of a run that are not ignored, after subtracting an overhead. */
  function KeptSamples(s: Signal.State, ignored: nat, overhead: nat, modulus: nat): seq<nat>
    requires modulus > 0
  {
    if |s.starts| == |s.ends| then Kept(s.starts, s.ends, ignored, overhead, modulus) else []
  }

  /** A finished run has logged one start and one end per sample, and stored their differences,
      as they are if they are words. */
  lemma FinishedRunIsLogged(c: Signal.Config, run: seq<Signal.State>, last: Signal.State, modulus: nat)
    requires c.Outranked() && IsFinishedRun(c, run, last) && modulus > 0
    ensures |last.starts| == |last.ends| == |last.samples| == c.n
    ensures forall i :: 0 <= i < c.n ==> last.starts[i] + last.samples[i] == last.ends[i] && last.samples[i] > 0
    ensures forall i :: 0 <= i < c.n && last.samples[i] < modulus ==>
      StoredWords(last.samples, modulus)[i] == last.samples[i]
    ensures StoredWords(last.samples, modulus) == RawSamples(last.starts, last.ends, modulus)
  {
    Signal.EveryRun(c, run);
    var w, r := StoredWords(last.samples, modulus), RawSamples(last.starts, last.ends, modulus);
    forall i | 0 <= i < c.n
      ensures last.starts[i] + last.samples[i] == last.ends[i] && last.samples[i] > 0
      ensures last.samples[i] < modulus ==> w[i] == last.samples[i]
      ensures w[i] == r[i]
    {
      assert Signal.SamplePairs(last, i);
      AdjustedIsDifference(0, last.samples[i], 0, modulus);
    }
  }

  /** Every time that is not ignored, less the overhead, is a word. */
  predicate TimesAreWords(starts: seq<nat>, ends: seq<nat>, ignored: nat, overhead: nat, modulus: nat)
    requires |starts| == |ends|
  {
    forall i :: ignored <= i < |starts| ==> 0 <= ends[i] - starts[i] - overhead < modulus
  }

  /** `mean` is the integer part of total / n. */
  predicate Truncates(mean: nat, total: int, n: nat) { mean * n <= total < (mean + 1) * n }

  /** `mean` is the integer part of the mean time between the stamps less the overhead. */
  predicate IsMeanOfTimes(starts: seq<nat>, ends: seq<nat>, ignored: nat, overhead: nat, modulus: nat, mean: nat) {
    && |starts| == |ends| >= ignored
    && (TimesAreWords(starts, ends, ignored, overhead, modulus) ==>
          Truncates(mean, TotalTime(starts, ends, ignored, overhead, |starts|), |starts| - ignored))
  }

  lemma MeanOfTimes(
    starts: seq<nat>, ends: seq<nat>, ignored: nat, overhead: nat, modulus: nat, m: nat, sum: nat, mean: nat)
    requires |starts| == |ends| && ignored < |starts| && modulus > 0
    requires var k := Kept(starts, ends, ignored, overhead, modulus);
      m >= 1 && BoundedBy(k, m) && |k| * (m * m) < modulus && sum == Sum(k) % modulus
    requires mean == EarlyMean(|starts| - ignored, sum)
    ensures IsMeanOfTimes(starts, ends, ignored, overhead, modulus, mean)
  {
    var k := Kept(starts, ends, ignored, overhead, modulus);
    if TimesAreWords(starts, ends, ignored, overhead, modulus) {
      SumIsTotalTime(starts, ends, ignored, overhead, modulus, |starts|);
      assert k[..|starts| - ignored] == k;
      SumsAreExact(k, m, modulus);
      EarlyMeanBounds(|starts| - ignored, sum);
    }
  }

  /** The samples fit the sums, bounded by b, and no sample borrows between the overheads. */
  predicate SumsFitWords(k: seq<nat>, b: nat, modulus: nat, early: nat, late: nat) {
    b >= 1 && BoundedBy(k, b) && |k| * (b * b) < modulus && NoBorrowBetween(k, early, late, modulus)
  }

  /** The two results agree. */
  predicate Agree(mean: nat, variance: real, early: nat, late: nat, r: Result) {
    && (r.mean - (mean - (late - early)) == 0 || r.mean - (mean - (late - early)) == 1)
    && -0.5 <= variance - r.variance as real < 1.5
  }

  lemma BothWaysAgree(
    starts: seq<nat>, ends: seq<nat>, words: seq<nat>, ignored: nat, early: nat, late: nat, modulus: nat, b: nat,
    sum: nat, sum2: nat, mean: nat, variance: real, r: Result)
    requires |starts| == |ends| && ignored < |starts| && modulus > 0
    requires words == RawSamples(starts, ends, modulus)
    requires SumsFitWords(Kept(starts, ends, ignored, early, modulus), b, modulus, early, late)
    requires sum == Sum(Kept(starts, ends, ignored, early, modulus)) % modulus
    requires sum2 == SumOfSquares(Kept(starts, ends, ignored, early, modulus)) % modulus
    requires mean == EarlyMean(|starts| - ignored, sum)
    requires variance == EarlyVariance(|starts| - ignored, sum, sum2, mean)
    requires Summarises(Subtract(words[ignored..], late, modulus), modulus, r)
    ensures r.samples == |starts| - ignored && Agree(mean, variance, early, late, r)
  {
    EarlyAgreesWithLate(starts, ends, ignored, early, late, modulus, b, sum, sum2, r);
  }

  method ProcessStamps(
    starts: seq<nat>, ends: seq<nat>, words: seq<nat>, ignored: nat, early: nat, late: nat, half: nat, modulus: nat,
    ghost b: nat)
    returns (mean: nat, variance: real, r: Result)
    requires |starts| == |ends| && ignored < |starts| <= half && modulus > 0
    requires words == RawSamples(starts, ends, modulus)
    requires SumsFitWords(Kept(starts, ends, ignored, early, modulus), b, modulus, early, late)
    ensures r.samples == |starts| - ignored && Agree(mean, variance, early, late, r)
    ensures IsMeanOfTimes(starts, ends, ignored, early, modulus, mean)
  {
    var sum, sum2 := AccumulateSums(starts, ends, ignored, early, half, modulus);
    mean := EarlyMean(|starts| - ignored, sum);
    variance := EarlyVariance(|starts| - ignored, sum, sum2, mean);
    r := CalculateResults(Subtract(words[ignored..], late, modulus), modulus);
    BothWaysAgree(starts, ends, words, ignored, early, late, modulus, b, sum, sum2, mean, variance, r);
    MeanOfTimes(starts, ends, ignored, early, modulus, b, sum, mean);
  }

  /** Processing a finished run both ways: the result early processing derives from the sums
      of its logged stamps agrees with the one late processing computes from its stored
      samples. The early sums must not wrap and no sample may borrow. If the times between the
      stamps, less the overhead, are words, the early mean is the integer part of their mean. */
  method ProcessBothWays(
    c: Signal.Config, ghost run: seq<Signal.State>, last: Signal.State,
    ignored: nat, early: nat, late: nat, half: nat, modulus: nat, ghost b: nat)
    returns (mean: nat, variance: real, r: Result)
    requires c.Outranked() && IsFinishedRun(c, run, last) && ignored < c.n <= half && modulus > 0
    requires SumsFitWords(KeptSamples(last, ignored, early, modulus), b, modulus, early, late)
    ensures r.samples == c.n - ignored && Agree(mean, variance, early, late, r)
    ensures IsMeanOfTimes(last.starts, last.ends, ignored, early, modulus, mean)
  {
    FinishedRunIsLogged(c, run, last, modulus);
    mean, variance, r := ProcessStamps(
      last.starts, last.ends, StoredWords(last.samples, modulus), ignored, early, late, half, modulus, b);
  }
}
