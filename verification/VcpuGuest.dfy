/**
 The guest side of the VCPU benchmarks: one benchmark is a fixed number of measurements, of
 which those that jump up by 800 cycles or more against the one before are set aside as
 anomalies.
 */
module VcpuGuest {
  import opened Sums
  import opened Modular

  const ANOMALY_THRESHOLD: nat := 800

  datatype Stamp = Stamp(start: nat, end: nat)

  /** Cycle counts are numbers below `range` and differences wrap around. */
  function Elapsed(st: Stamp, range: nat): nat
    requires range > 0
  {
    (st.end as int - st.start as int) % range
  }

  /** It is the time between the stamps if they are in order, and across one wrap of the counter
      if they are not. */
  lemma ElapsedIsDifference(st: Stamp, range: nat)
    requires range > 0
    ensures st.start <= st.end < st.start + range ==> Elapsed(st, range) == st.end - st.start
    ensures st.end < st.start <= st.end + range ==> Elapsed(st, range) == st.end + range - st.start
  {
    var x: int := st.end as int - st.start as int;
    if 0 <= x < range { DivideBy(x, range, 0, x); }
    if 0 <= x + range < range { DivideBy(x, range, -1, x + range); }
  }

  function ElapsedTimes(stamps: seq<Stamp>, range: nat): (e: seq<nat>)
    requires range > 0
    ensures |e| == |stamps|
    ensures forall i :: 0 <= i < |e| ==> e[i] == Elapsed(stamps[i], range)
  {
    seq(|stamps|, i requires 0 <= i < |stamps| => Elapsed(stamps[i], range))
  }

  lemma TimesInOrder(stamps: seq<Stamp>, range: nat)
    requires range > 0
    ensures forall i :: 0 <= i < |stamps| && stamps[i].start <= stamps[i].end < stamps[i].start + range ==>
      Elapsed(stamps[i], range) == stamps[i].end - stamps[i].start
  {
    forall i | 0 <= i < |stamps| && stamps[i].start <= stamps[i].end < stamps[i].start + range
      ensures Elapsed(stamps[i], range) == stamps[i].end - stamps[i].start
    {
      ElapsedIsDifference(stamps[i], range);
    }
  }

  // ---------------------------------------------------------------------------
  // Jumps
  // ---------------------------------------------------------------------------

  /** Measurement i is at least the threshold above the one before it. */
  predicate Jumps(e: seq<nat>, i: nat)
    requires i < |e|
  {
    i > 0 && e[i] - e[i - 1] >= ANOMALY_THRESHOLD
  }

  /** The measurements that do not jump, and those that do, in order. */
  function KeptOf(e: seq<nat>): seq<nat> {
    if e == [] then []
    else
      var before := KeptOf(e[..|e| - 1]);
      if Jumps(e, |e| - 1) then before else before + [e[|e| - 1]]
  }

  function JumpsOf(e: seq<nat>): seq<nat> {
    if e == [] then []
    else
      var before := JumpsOf(e[..|e| - 1]);
      if Jumps(e, |e| - 1) then before + [e[|e| - 1]] else before
  }

  lemma {:induction false} FirstIsKept(e: seq<nat>)
    ensures |KeptOf(e)| + |JumpsOf(e)| == |e|
    ensures e != [] ==> KeptOf(e) != [] && KeptOf(e)[0] == e[0]
  {
    if e != [] { FirstIsKept(e[..|e| - 1]); }
  }

  lemma OneMoreElement(s: seq<nat>, t: seq<nat>, p: seq<nat>, x: nat, e: seq<nat>)
    requires multiset(s) + multiset(t) == multiset(p) && e == p + [x]
    ensures multiset(s + [x]) + multiset(t) == multiset(e)
    ensures multiset(s) + multiset(t + [x]) == multiset(e)
  {
    assert multiset(s + [x]) == multiset(s) + multiset{x};
    assert multiset(t + [x]) == multiset(t) + multiset{x};
    assert multiset(e) == multiset(p) + multiset{x};
  }

  lemma {:induction false} SameElements(e: seq<nat>)
    ensures multiset(KeptOf(e)) + multiset(JumpsOf(e)) == multiset(e)
  {
    if e != [] {
      var p, x := e[..|e| - 1], e[|e| - 1];
      SameElements(p);
      OneMoreElement(KeptOf(p), JumpsOf(p), p, x, e);
    }
  }

  /** Every measurement is either kept or set aside, and the first one is kept. */
  lemma KeptAndJumpsPartition(e: seq<nat>)
    ensures |KeptOf(e)| + |JumpsOf(e)| == |e|
    ensures multiset(KeptOf(e)) + multiset(JumpsOf(e)) == multiset(e)
    ensures e != [] ==> KeptOf(e) != [] && KeptOf(e)[0] == e[0]
  {
    FirstIsKept(e);
    SameElements(e);
  }

  /** What is left out of the clipped total is exactly the jumping measurements. */
  lemma {:induction false} TotalsConserved(e: seq<nat>)
    ensures Sum(KeptOf(e)) + Sum(JumpsOf(e)) == Sum(e)
  {
    if e != [] {
      var p, x := e[..|e| - 1], e[|e| - 1];
      TotalsConserved(p);
      SumAppend(KeptOf(p), x);
      SumAppend(JumpsOf(p), x);
    }
  }

  /** The largest measurement. */
  ghost predicate IsMax(e: seq<nat>, m: nat) {
    && (forall i :: 0 <= i < |e| ==> e[i] <= m)
    && (e == [] ==> m == 0)
    && (e != [] ==> m in e)
  }

  ghost predicate IsMin(e: seq<nat>, m: nat) {
    m in e && forall i :: 0 <= i < |e| ==> m <= e[i]
  }

  /** A minimum that starts at zero is the least measurement exactly when one of them is zero. */
  lemma ZeroIsLeast(e: seq<nat>)
    ensures IsMin(e, 0) <==> 0 in e
  {
  }

  /** A single measurement of 5 cycles, reported with minimum 0. */
  lemma MinimumCanBeMissed()
    ensures var e := ElapsedTimes([Stamp(10, 15)], 100); e == [5] && !IsMin(e, 0)
  {
    assert ElapsedTimes([Stamp(10, 15)], 100) == [5];
  }

  lemma MaxGrows(e: seq<nat>, i: nat, m: nat)
    requires i < |e| && e[i] <= m
    ensures IsMax(e[..i], m) || (m == e[i] && forall j :: 0 <= j < i ==> e[j] <= m) ==> IsMax(e[..i + 1], m)
  {
    assert e[..i + 1] == e[..i] + [e[i]];
    assert forall j :: 0 <= j < i ==> e[j] == e[..i][j];
    if i == 0 { assert e[..1] == [e[0]]; }
  }

  function Min(x: nat, y: nat): nat { if x <= y then x else y }

  function Max(x: nat, y: nat): nat { if x >= y then x else y }

  lemma AddWrapped(x: nat, y: nat, range: nat)
    requires range > 0
    ensures (x % range + y) % range == (x + y) % range
  {
    HighLow(x, range);
    ModuloShift(x % range + y, x / range, range);
  }

  lemma TotalsWrap(e: seq<nat>, range: nat)
    requires range > 0
    ensures (Sum(KeptOf(e)) % range + Sum(JumpsOf(e))) % range == Sum(e) % range
  {
    TotalsConserved(e);
    AddWrapped(Sum(KeptOf(e)), Sum(JumpsOf(e)), range);
  }

  lemma BenchmarkFacts(e: seq<nat>, range: nat)
    requires e != [] && range > 0
    ensures |e| - |JumpsOf(e)| == |KeptOf(e)| >= 1
    ensures (Sum(KeptOf(e)) % range + Sum(JumpsOf(e))) % range == Sum(e) % range
    ensures IsMin(e, 0) <==> 0 in e
  {
    KeptAndJumpsPartition(e);
    TotalsWrap(e, range);
    ZeroIsLeast(e);
  }

  lemma {:induction false} SumBetween(k: seq<nat>, lo: nat, hi: nat)
    requires forall i :: 0 <= i < |k| ==> lo <= k[i] <= hi
    ensures |k| * lo <= Sum(k) <= |k| * hi
  {
    if k != [] {
      SumBetween(k[..|k| - 1], lo, hi);
      assert |k| * lo == (|k| - 1) * lo + lo;
      assert |k| * hi == (|k| - 1) * hi + hi;
    }
  }

  lemma AverageBetween(sum: nat, n: nat, lo: nat, hi: nat)
    requires n > 0 && n * lo <= sum <= n * hi
    ensures lo <= sum / n <= hi
  {
    var q := sum / n;
    HighLow(sum, n);
    Scale(lo - q, n);
    Scale(q - hi, n);
    assert (lo - q) * n == n * lo - q * n;
    assert (q - hi) * n == q * n - n * hi;
  }

  /** Without wrap-around the clipped average lies among the kept measurements. */
  lemma ClippedAverageBounds(e: seq<nat>, range: nat, lo: nat, hi: nat)
    requires e != [] && Sum(KeptOf(e)) < range && |KeptOf(e)| > 0
    requires forall i :: 0 <= i < |KeptOf(e)| ==> lo <= KeptOf(e)[i] <= hi
    ensures lo <= High(Sum(KeptOf(e)) % range, |KeptOf(e)|) <= hi
  {
    var k := KeptOf(e);
    SmallModulo(Sum(k), range);
    SumBetween(k, lo, hi);
    AverageBetween(Sum(k), |k|, lo, hi);
  }

  /** Going from i to i + 1 measurements. */
  lemma OneMore(e: seq<nat>, i: nat, range: nat)
    requires i < |e| && range > 0
    ensures e[..i + 1] == e[..i] + [e[i]]
    ensures Jumps(e, i) ==> JumpsOf(e[..i + 1]) == JumpsOf(e[..i]) + [e[i]] && KeptOf(e[..i + 1]) == KeptOf(e[..i])
    ensures !Jumps(e, i) ==> JumpsOf(e[..i + 1]) == JumpsOf(e[..i]) && KeptOf(e[..i + 1]) == KeptOf(e[..i]) + [e[i]]
    ensures AddWord(Sum(e[..i]) % range, e[i], range) == Sum(e[..i + 1]) % range
    ensures AddWord(Sum(KeptOf(e[..i])) % range, e[i], range) == Sum(KeptOf(e[..i]) + [e[i]]) % range
  {
    var p := e[..i + 1];
    assert p[..i] == e[..i];
    SumAppend(e[..i], e[i]);
    SumAppend(KeptOf(e[..i]), e[i]);
    AddWrapped(Sum(e[..i]), e[i], range);
    AddWrapped(Sum(KeptOf(e[..i])), e[i], range);
  }

  // ---------------------------------------------------------------------------
  // The benchmark loop
  // ---------------------------------------------------------------------------

  class Results {
    var min: nat
    var max: nat
    var clippedAverage: nat
    var completeAverage: nat
    var clippedTotal: nat
    var completeTotal: nat
    var anomalies: nat
    const start: array<nat>
    const end: array<nat>
    const elapsed: array<nat>

    ghost predicate Shape(n: nat) {
      && start.Length == n && end.Length == n && elapsed.Length == n
      && start != end && start != elapsed && end != elapsed
    }

    constructor (n: nat)
      ensures Shape(n) && fresh(start) && fresh(end) && fresh(elapsed)
    {
      min, max, clippedAverage, completeAverage := 0, 0, 0, 0;
      clippedTotal, completeTotal, anomalies := 0, 0, 0;
      start, end, elapsed := new nat[n], new nat[n], new nat[n];
    }

    /** Compares a measurement with the stamps stored for the one before. */
    method AnomalyDetected(i: nat, current: nat, range: nat) returns (anomaly: bool)
      requires range > 0 && 0 < i <= start.Length && i <= end.Length
      ensures var previous := Elapsed(Stamp(start[i - 1], end[i - 1]), range);
        anomaly <==> current >= previous + ANOMALY_THRESHOLD
    {
      var previous := Elapsed(Stamp(start[i - 1], end[i - 1]), range);
      var difference := 0;
      if current > previous {
        difference := current - previous;
      }
      anomaly := difference >= ANOMALY_THRESHOLD;
    }

    ghost predicate Totalled(e: seq<nat>, range: nat)
      requires range > 0
      reads this
    {
      && anomalies == |JumpsOf(e)|
      && completeTotal == Sum(e) % range && clippedTotal == Sum(KeptOf(e)) % range
    }

    /** The accumulators after the measurements e. */
    ghost predicate Summed(e: seq<nat>, range: nat)
      requires range > 0
      reads this
    {
      Totalled(e, range) && min == 0 && IsMax(e, max)
    }

    /** The stored data after the measurements of the first i stamps. */
    ghost predicate Stored(stamps: seq<Stamp>, range: nat, i: nat)
      requires range > 0 && i <= |stamps| && Shape(|stamps|)
      reads start, end, elapsed
    {
      && (forall j :: 0 <= j < i ==> start[j] == stamps[j].start)
      && (forall j :: 0 <= j < i ==> end[j] == stamps[j].end)
      && (forall j :: 0 <= j < i ==> elapsed[j] == Elapsed(stamps[j], range))
    }

    method AddToTotals(current: nat, anomaly: bool, range: nat, ghost e: seq<nat>, ghost i: nat)
      requires range > 0 && i < |e| && Totalled(e[..i], range)
      requires current == e[i] && (anomaly <==> Jumps(e, i))
      modifies this`completeTotal, this`clippedTotal, this`anomalies
      ensures Totalled(e[..i + 1], range)
    {
      OneMore(e, i, range);
      completeTotal := AddWord(completeTotal, current, range);
      if !anomaly {
        clippedTotal := AddWord(clippedTotal, current, range);
      } else {
        anomalies := anomalies + 1;
      }
    }

    /** The updates of one iteration. */
    method Accumulate(current: nat, anomaly: bool, range: nat, ghost e: seq<nat>, ghost i: nat)
      requires range > 0 && i < |e| && Summed(e[..i], range)
      requires current == e[i] && (anomaly <==> Jumps(e, i))
      modifies this
      ensures Summed(e[..i + 1], range)
    {
      AddToTotals(current, anomaly, range, e, i);
      min := Min(min, current);
      max := Max(max, current);
      MaxGrows(e, i, max);
    }

    /** One iteration: take a measurement, store it, and judge it against the one before. */
    method Measure(i: nat, stamps: seq<Stamp>, range: nat) returns (current: nat, anomaly: bool)
      requires range > 0 && i < |stamps| && Shape(|stamps|) && Stored(stamps, range, i)
      modifies start, end, elapsed
      ensures Stored(stamps, range, i + 1)
      ensures current == ElapsedTimes(stamps, range)[i] && (anomaly <==> Jumps(ElapsedTimes(stamps, range), i))
    {
      current := Elapsed(stamps[i], range);
      start[i], end[i], elapsed[i] := stamps[i].start, stamps[i].end, current;
      anomaly := false;
      if i > 0 {
        anomaly := AnomalyDetected(i, current, range);
        assert Stamp(start[i - 1], end[i - 1]) == stamps[i - 1];
      }
    }

    method MeasureAll(stamps: seq<Stamp>, range: nat)
      requires Shape(|stamps|) && range > 0
      modifies this, start, end, elapsed
      ensures Stored(stamps, range, |stamps|) && Summed(ElapsedTimes(stamps, range), range)
    {
      min, max, clippedTotal, completeTotal, anomalies := 0, 0, 0, 0, 0;
      ghost var e := ElapsedTimes(stamps, range);
      for i := 0 to |stamps|
        invariant Stored(stamps, range, i) && Summed(e[..i], range)
      {
        var current, anomaly := Measure(i, stamps, range);
        Accumulate(current, anomaly, range, e, i);
      }
      assert e[..|stamps|] == e;
    }

    /** One benchmark, its measurements taken as the given stamps: what is stored is what was
        measured, the anomalies are exactly the upward jumps, and the clipped average is over
        at least one measurement. The minimum starts at zero and stays there, so it is the
        least measurement exactly when that is zero. */
    method RunBenchmark(stamps: seq<Stamp>, range: nat)
      requires stamps != [] && Shape(|stamps|) && range > 0
      modifies this, start, end, elapsed
      ensures Stored(stamps, range, |stamps|)
      ensures forall i :: 0 <= i < |stamps| && stamps[i].start <= stamps[i].end < stamps[i].start + range ==>
        elapsed[i] == stamps[i].end - stamps[i].start
      ensures var e := ElapsedTimes(stamps, range);
        && Summed(e, range)
        && |stamps| - anomalies == |KeptOf(e)| >= 1
        && (clippedTotal + Sum(JumpsOf(e))) % range == completeTotal
        && clippedAverage == High(clippedTotal, |KeptOf(e)|)
        && completeAverage == High(completeTotal, |e|)
        && min == 0 && (IsMin(e, min) <==> 0 in e)
    {
      MeasureAll(stamps, range);
      BenchmarkFacts(ElapsedTimes(stamps, range), range);
      TimesInOrder(stamps, range);
      clippedAverage := High(clippedTotal, |stamps| - anomalies);
      completeAverage := High(completeTotal, |stamps|);
    }
  }
}
