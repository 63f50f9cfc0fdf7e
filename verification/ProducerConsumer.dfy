/**
 Producer and consumer of the sync benchmark, over a FIFO of any capacity, under a lock
 with two condition variables.

 The lock and the condition variables are taken by contract: acquiring waits for a free
 lock, waiting releases the lock and sleeps, signalling moves a sleeper to re-acquiring
 (it must take the lock and test its condition again), and a signal without a sleeper is
 lost.  Both thread bodies are the same text with the roles of the condition variables
 and of the two stamp cells exchanged, so one step function serves both.
 */
module ProducerConsumer {
  import opened Stamps

  datatype Who = Producer | Consumer

  function Other(w: Who): Who { if w.Producer? then Consumer else Producer }

  datatype Pc =
    | Acquire | Check | Waiting | Reacquire
    | ReadEnd | Store | Work | ReadSignal | Signal | Post
    | Done | Blocked

  /** A recorded sample, with the stamp it ends at and the number of stamps the partner
      had written when it was taken. */
  datatype Sample = Sample(value: int, end: nat, seen: nat)

  /** An acquisition of the lock during iteration `i`. */
  datatype Acquisition = Acquisition(i: nat, at: nat)

  /** `cell` is the stamp cell this thread reads; `stamps` logs what it wrote to the
      partner's cell. The other logs record when it took the lock, signalled its partner and
      released the lock at the end of an iteration. */
  datatype Thread = Thread(
    pc: Pc, i: nat, end: nat, cell: nat, samples: seq<Sample>, stamps: seq<nat>,
    acquires: seq<Acquisition>, signals: seq<nat>, releases: seq<nat>)

  datatype Lock = Free | HeldBy(who: Who)

  datatype State = State(now: nat, producer: Thread, consumer: Thread, lock: Lock, head: int, completions: nat) {
    function At(w: Who): Thread { if w.Producer? then producer else consumer }

    function With(w: Who, t: Thread): State {
      if w.Producer? then this.(producer := t) else this.(consumer := t)
    }
  }

  /** FIFO capacity and number of runs. */
  datatype Config = Config(cap: nat, n: nat)

  /** The loop condition of each thread. */
  predicate MustWait(c: Config, s: State, w: Who) {
    if w.Producer? then s.head == c.cap else s.head == 0
  }

  function LoopHead(c: Config, i: nat): Pc { if i < c.n then Acquire else Done }

  predicate Init(c: Config, s: State) {
    && s.head == 0 && s.lock.Free? && s.completions == 0
    && forall w :: && s.At(w).pc == LoopHead(c, 0) && s.At(w).i == 0
                   && s.At(w).samples == [] && s.At(w).stamps == []
                   && s.At(w).acquires == [] && s.At(w).signals == [] && s.At(w).releases == []
  }

  predicate Enabled(s: State, w: Who) {
    match s.At(w).pc
    case Acquire | Reacquire => s.lock.Free?
    case Waiting | Blocked => false
    case _ => true
  }

  function Wake(t: Thread): Thread { if t.pc.Waiting? then t.(pc := Reacquire) else t }

  function Apply(c: Config, s0: State, w: Who, at: nat): State {
    var s := s0.(now := at);
    var t := s.At(w);
    var o := s.At(Other(w));
    match t.pc
    case Acquire | Reacquire => s.(lock := HeldBy(w)).With(w, t.(pc := Check, acquires := t.acquires + [Acquisition(t.i, at)]))
    case Check =>
      if MustWait(c, s, w) then s.(lock := Free).With(w, t.(pc := Waiting))
      else s.With(w, t.(pc := ReadEnd))
    case ReadEnd => s.With(w, t.(end := at, pc := Store))
    case Store => s.With(w, t.(samples := t.samples + [Sample(t.end - t.cell, t.end, |o.stamps|)], pc := Work))
    case Work => s.(head := if w.Producer? then s.head + 1 else s.head - 1).With(w, t.(pc := ReadSignal))
    case ReadSignal => s.With(Other(w), o.(cell := at)).With(w, t.(stamps := t.stamps + [at], pc := Signal))
    case Signal => s.With(Other(w), Wake(o)).With(w, t.(pc := Post, signals := t.signals + [at]))
    case Post =>
      s.(lock := Free).With(w, t.(i := t.i + 1, pc := LoopHead(c, t.i + 1), releases := t.releases + [at]))
    case Done => s.(completions := s.completions + 1).With(w, t.(pc := Blocked))
    case Waiting | Blocked => s
  }

  ghost predicate Next(c: Config, s: State, t: State) {
    exists w, at: nat :: s.now < at && Enabled(s, w) && t == Apply(c, s, w, at)
  }

  ghost predicate IsRun(c: Config, run: seq<State>) {
    && |run| > 0 && Init(c, run[0])
    && forall k :: 0 <= k < |run| - 1 ==> Next(c, run[k], run[k + 1])
  }

  // ---------------------------------------------------------------------------
  // The invariant
  // ---------------------------------------------------------------------------

  predicate Holding(pc: Pc) {
    pc.Check? || pc.ReadEnd? || pc.Store? || pc.Work? || pc.ReadSignal? || pc.Signal? || pc.Post?
  }

  /** Items this thread has put into or taken out of the FIFO. */
  function Moved(t: Thread): nat {
    t.i + if t.pc.ReadSignal? || t.pc.Signal? || t.pc.Post? then 1 else 0
  }

  predicate ThreadFits(c: Config, s: State, w: Who) {
    var t := s.At(w);
    && t.i <= c.n && (t.pc.Done? || t.pc.Blocked? <==> t.i == c.n)
    && (Holding(t.pc) <==> s.lock == HeldBy(w))
    && |t.samples| == t.i + (if t.pc.Work? || t.pc.ReadSignal? || t.pc.Signal? || t.pc.Post? then 1 else 0)
    && |t.stamps| == t.i + (if t.pc.Signal? || t.pc.Post? then 1 else 0)
  }

  /** A thread past its test may move an item; a sleeper has nothing to do yet, or its
      partner is about to signal it; a thread that was woken will not sleep again; a
      signal is only sent to a partner that may move. */
  predicate NoLostWakeup(c: Config, s: State, w: Who) {
    var t, o := s.At(w), s.At(Other(w));
    && (t.pc.ReadEnd? || t.pc.Store? || t.pc.Work? ==> !MustWait(c, s, w))
    && (t.pc.Waiting? ==> MustWait(c, s, w) || o.pc.ReadSignal? || o.pc.Signal?)
    && (t.pc.Reacquire? ==> !MustWait(c, s, w))
    && (t.pc.ReadSignal? || t.pc.Signal? ==> !MustWait(c, s, Other(w)))
  }

  /** How many partner stamps sample `k` can have seen. */
  predicate InWindow(c: Config, w: Who, k: nat, seen: nat) {
    if w.Consumer? then k < seen <= k + c.cap else seen <= k < seen + c.cap
  }

  /** Sample `k` was measured from the partner's latest stamp at that time. */
  predicate SampleFits(c: Config, w: Who, k: nat, x: Sample, stamps: seq<nat>) {
    && InWindow(c, w, k, x.seen)
    && x.seen <= |stamps|
    && (x.seen > 0 ==> x.value == x.end - stamps[x.seen - 1])
  }

  /** The cell holds the partner's latest stamp, and so did every recorded sample. */
  ghost predicate SamplesPair(c: Config, s: State, w: Who) {
    var t, o := s.At(w), s.At(Other(w));
    && (|o.stamps| > 0 ==> t.cell == o.stamps[|o.stamps| - 1])
    && forall k :: 0 <= k < |t.samples| ==> SampleFits(c, w, k, t.samples[k], o.stamps)
  }

  function Finished(t: Thread): nat { if t.pc.Blocked? then 1 else 0 }

  predicate Shared(c: Config, s: State) {
    && 0 <= s.head <= c.cap
    && s.head == Moved(s.producer) - Moved(s.consumer)
    && s.completions == Finished(s.producer) + Finished(s.consumer)
  }

  predicate Core(c: Config, s: State) {
    && Shared(c, s)
    && ThreadFits(c, s, Producer) && ThreadFits(c, s, Consumer)
    && NoLostWakeup(c, s, Producer) && NoLostWakeup(c, s, Consumer)
  }

  // ---------------------------------------------------------------------------
  // When things happen
  // ---------------------------------------------------------------------------

  /** The lock was taken for iteration k before `t`, and for later ones after it. */
  ghost predicate TakenFor(acquires: seq<Acquisition>, k: nat, t: nat) {
    && (exists x :: 0 <= x < |acquires| && acquires[x].i == k)
    && (forall x :: 0 <= x < |acquires| ==> if acquires[x].i <= k then acquires[x].at < t else t < acquires[x].at)
  }

  /** Sample k of thread t ends after this thread has taken the lock for iteration k and before
      it stamps, signals and releases in that iteration; and exactly `seen` stamps, signals and
      releases of the partner come before it. */
  ghost predicate TimedSample(t: Thread, o: Thread, k: nat, x: Sample) {
    && TakenFor(t.acquires, k, x.end)
    && Splits(t.stamps, x.end, k) && Splits(t.signals, x.end, k) && Splits(t.releases, x.end, k)
    && Splits(o.stamps, x.end, x.seen) && Splits(o.signals, x.end, x.seen) && Splits(o.releases, x.end, x.seen)
  }

  /** Stamp k is written after taking the lock for iteration k and before signalling and
      releasing it in that iteration. */
  ghost predicate TimedStamp(t: Thread, k: nat, stamp: nat) {
    TakenFor(t.acquires, k, stamp) && Splits(t.signals, stamp, k) && Splits(t.releases, stamp, k)
  }

  ghost predicate Timed(s: State, w: Who) {
    var t, o := s.At(w), s.At(Other(w));
    && (forall k :: 0 <= k < |t.samples| ==> TimedSample(t, o, k, t.samples[k]) && t.samples[k].end <= s.now)
    && (forall k :: 0 <= k < |t.stamps| ==> TimedStamp(t, k, t.stamps[k]))
    && (forall k :: 0 <= k < |t.signals| ==> Splits(t.releases, t.signals[k], k))
  }

  ghost predicate Before(ts: seq<nat>, t: nat) { forall x :: 0 <= x < |ts| ==> ts[x] < t }

  /** Everything thread t has logged happened before `at`. */
  ghost predicate LoggedBefore(t: Thread, at: nat) {
    && Before(t.stamps, at) && Before(t.signals, at) && Before(t.releases, at)
    && forall x :: 0 <= x < |t.acquires| ==> t.acquires[x].at < at
  }

  /** How far a thread's logs have come. */
  predicate LogCounts(t: Thread) {
    && |t.signals| == t.i + (if t.pc.Post? then 1 else 0) && |t.releases| == t.i
    && (forall x :: 0 <= x < |t.acquires| ==> t.acquires[x].i <= t.i)
    && (Holding(t.pc) ==> |t.acquires| > 0 && t.acquires[|t.acquires| - 1].i == t.i)
  }

  /** A pending end stamp is later than every event so far. */
  ghost predicate EndIsLatest(s: State, w: Who) {
    var t := s.At(w);
    t.pc.Store? ==> LoggedBefore(t, t.end) && LoggedBefore(s.At(Other(w)), t.end) && t.end <= s.now
  }

  ghost predicate LogFits(s: State, w: Who) {
    LoggedBefore(s.At(w), s.now + 1) && LogCounts(s.At(w)) && EndIsLatest(s, w)
  }

  ghost predicate Times(s: State) {
    LogFits(s, Producer) && LogFits(s, Consumer) && Timed(s, Producer) && Timed(s, Consumer)
  }

  ghost predicate Inv(c: Config, s: State) {
    Core(c, s) && SamplesPair(c, s, Producer) && SamplesPair(c, s, Consumer) && Times(s)
  }

  lemma InitHolds(c: Config, s: State)
    requires c.cap > 0 && Init(c, s)
    ensures Inv(c, s)
  {
    assert forall w :: s.At(w).pc == LoopHead(c, 0);
    assert s.At(Producer).i == 0 && s.At(Consumer).i == 0;
  }

  lemma StepShared(c: Config, s: State, w: Who, at: nat)
    requires c.cap > 0 && Core(c, s) && Enabled(s, w)
    ensures Shared(c, Apply(c, s, w, at))
  {
  }

  lemma StepFitsOwn(c: Config, s: State, w: Who, at: nat)
    requires ThreadFits(c, s, w) && Enabled(s, w)
    ensures ThreadFits(c, Apply(c, s, w, at), w)
  {
  }

  /** A step leaves the partner's place alone, except that it may wake it. */
  lemma StepFitsOther(c: Config, s: State, w: Who, at: nat)
    requires ThreadFits(c, s, w) && ThreadFits(c, s, Other(w)) && Enabled(s, w)
    ensures ThreadFits(c, Apply(c, s, w, at), Other(w))
  {
  }

  lemma StepWakes(c: Config, s: State, w: Who, at: nat, v: Who)
    requires c.cap > 0 && Core(c, s) && Enabled(s, w)
    ensures NoLostWakeup(c, Apply(c, s, w, at), v)
  {
  }

  /** A recorded sample stays what it is when the partner writes more stamps. */
  lemma PairsKept(c: Config, s: State, t: State, v: Who)
    requires SamplesPair(c, s, v)
    requires t.At(v).samples == s.At(v).samples
    requires (t.At(Other(v)).stamps == s.At(Other(v)).stamps && t.At(v).cell == s.At(v).cell)
          || t.At(Other(v)).stamps == s.At(Other(v)).stamps + [t.At(v).cell]
    ensures SamplesPair(c, t, v)
  {
  }

  lemma NextSampleFits(c: Config, s: State, w: Who)
    requires c.cap > 0 && Core(c, s) && SamplesPair(c, s, w) && s.At(w).pc.Store?
    ensures var t, o := s.At(w), s.At(Other(w));
      SampleFits(c, w, |t.samples|, Sample(t.end - t.cell, t.end, |o.stamps|), o.stamps)
  {
  }

  lemma StoresPair(c: Config, s: State, w: Who, at: nat)
    requires c.cap > 0 && Core(c, s) && SamplesPair(c, s, w) && s.At(w).pc.Store?
    ensures SamplesPair(c, Apply(c, s, w, at), w)
  {
    var t, o := s.At(w), s.At(Other(w));
    NextSampleFits(c, s, w);
    var u := Apply(c, s, w, at);
    assert u.At(Other(w)) == o && u.At(w).cell == t.cell;
    forall k | 0 <= k < |u.At(w).samples| ensures SampleFits(c, w, k, u.At(w).samples[k], o.stamps) {
      assert k < |t.samples| ==> u.At(w).samples[k] == t.samples[k];
    }
  }

  lemma StepPairs(c: Config, s: State, w: Who, at: nat, v: Who)
    requires c.cap > 0 && Core(c, s) && SamplesPair(c, s, v) && s.now < at && Enabled(s, w)
    ensures SamplesPair(c, Apply(c, s, w, at), v)
  {
    if w == v && s.At(w).pc.Store? {
      StoresPair(c, s, w, at);
    } else {
      PairsKept(c, s, Apply(c, s, w, at), v);
    }
  }

  /** Appending an event at `at`, or nothing. */
  ghost predicate Grown(ts: seq<nat>, us: seq<nat>, at: nat) { us == ts || us == ts + [at] }

  /** What a step at `at` may do to a thread's logs: a new acquisition is for its iteration. */
  ghost predicate LogGrown(t: Thread, u: Thread, at: nat) {
    && Grown(t.stamps, u.stamps, at) && Grown(t.signals, u.signals, at) && Grown(t.releases, u.releases, at)
    && (u.acquires == t.acquires || u.acquires == t.acquires + [Acquisition(t.i, at)])
  }

  lemma StepGrows(c: Config, s: State, w: Who, at: nat, v: Who)
    requires Enabled(s, w)
    ensures LogGrown(s.At(v), Apply(c, s, w, at).At(v), at)
  {
  }

  lemma TakenKept(t: Thread, u: Thread, at: nat, k: nat, time: nat)
    requires LogGrown(t, u, at) && TakenFor(t.acquires, k, time) && time < at
    requires k < t.i || u.acquires == t.acquires
    ensures TakenFor(u.acquires, k, time)
  {
    var x :| 0 <= x < |t.acquires| && t.acquires[x].i == k;
    assert u.acquires[x].i == k;
  }

  lemma TimedSampleKept(t: Thread, o: Thread, t': Thread, o': Thread, at: nat, k: nat, x: Sample)
    requires TimedSample(t, o, k, x) && x.end < at && LogGrown(t, t', at) && LogGrown(o, o', at)
    requires k < t.i || t'.acquires == t.acquires
    ensures TimedSample(t', o', k, x)
  {
    TakenKept(t, t', at, k, x.end);
    SplitsKept(t.stamps, t'.stamps, x.end, k, at);
    SplitsKept(t.signals, t'.signals, x.end, k, at);
    SplitsKept(t.releases, t'.releases, x.end, k, at);
    SplitsKept(o.stamps, o'.stamps, x.end, x.seen, at);
    SplitsKept(o.signals, o'.signals, x.end, x.seen, at);
    SplitsKept(o.releases, o'.releases, x.end, x.seen, at);
  }

  lemma TimedStampKept(t: Thread, u: Thread, at: nat, k: nat, stamp: nat)
    requires TimedStamp(t, k, stamp) && stamp < at && LogGrown(t, u, at)
    requires k < t.i || u.acquires == t.acquires
    ensures TimedStamp(u, k, stamp)
  {
    TakenKept(t, u, at, k, stamp);
    SplitsKept(t.signals, u.signals, stamp, k, at);
    SplitsKept(t.releases, u.releases, stamp, k, at);
  }

  /** An event later than everything logged. */
  lemma LatestIsTaken(t: Thread, time: nat)
    requires LoggedBefore(t, time) && |t.acquires| > 0 && t.acquires[|t.acquires| - 1].i == t.i
    requires forall x :: 0 <= x < |t.acquires| ==> t.acquires[x].i <= t.i
    ensures TakenFor(t.acquires, t.i, time)
  {
  }

  lemma NewSampleTimed(c: Config, s: State, w: Who)
    requires Core(c, s) && LogFits(s, w) && LogFits(s, Other(w)) && s.At(w).pc.Store?
    ensures var t, o := s.At(w), s.At(Other(w));
      TimedSample(t, o, |t.samples|, Sample(t.end - t.cell, t.end, |o.stamps|))
  {
    var t := s.At(w);
    assert ThreadFits(c, s, w) && ThreadFits(c, s, Other(w));
    LatestIsTaken(t, t.end);
  }

  /** Samples are only added, by the thread itself and while its logs stand still. */
  lemma SamplesGrow(c: Config, s: State, w: Who, at: nat, v: Who)
    requires Core(c, s) && Enabled(s, w)
    ensures var t, o, u := s.At(v), s.At(Other(v)), Apply(c, s, w, at);
      && (u.At(v).samples == t.samples ||
           (v == w && t.pc.Store? && u.At(v).samples == t.samples + [Sample(t.end - t.cell, t.end, |o.stamps|)]))
      && (|t.samples| <= t.i || u.At(v).acquires == t.acquires)
  {
    assert ThreadFits(c, s, v);
  }

  /** Stamps are only added, by the thread itself when it reads the clock for them. */
  lemma StampsGrow(c: Config, s: State, w: Who, at: nat, v: Who)
    requires Core(c, s) && Enabled(s, w)
    ensures var t, t' := s.At(v), Apply(c, s, w, at).At(v);
      && (t'.stamps == t.stamps ||
           (t.pc.ReadSignal? && |t.stamps| == t.i && t' == t.(pc := t'.pc, stamps := t.stamps + [at])))
      && (|t.stamps| <= t.i || t'.acquires == t.acquires)
  {
    assert ThreadFits(c, s, v);
  }

  lemma TimedSamplesGrow(t: Thread, o: Thread, t': Thread, o': Thread, now: nat, at: nat)
    requires now < at && LogGrown(t, t', at) && LogGrown(o, o', at)
    requires |t.samples| <= t.i || t'.acquires == t.acquires
    requires forall k :: 0 <= k < |t.samples| ==> TimedSample(t, o, k, t.samples[k]) && t.samples[k].end <= now
    requires t'.samples == t.samples ||
      (t'.acquires == t.acquires && t'.samples == t.samples + [Sample(t.end - t.cell, t.end, |o.stamps|)]
       && t.end <= now && TimedSample(t, o, |t.samples|, Sample(t.end - t.cell, t.end, |o.stamps|)))
    ensures forall k :: 0 <= k < |t'.samples| ==> TimedSample(t', o', k, t'.samples[k]) && t'.samples[k].end <= at
  {
    forall k | 0 <= k < |t'.samples| ensures TimedSample(t', o', k, t'.samples[k]) && t'.samples[k].end <= at {
      TimedSampleKept(t, o, t', o', at, k, t'.samples[k]);
    }
  }

  lemma SamplesTimed(c: Config, s: State, w: Who, at: nat, v: Who)
    requires Core(c, s) && Times(s) && s.now < at && Enabled(s, w)
    ensures var u := Apply(c, s, w, at);
      forall k :: 0 <= k < |u.At(v).samples| ==>
        TimedSample(u.At(v), u.At(Other(v)), k, u.At(v).samples[k]) && u.At(v).samples[k].end <= at
  {
    var u := Apply(c, s, w, at);
    StepGrows(c, s, w, at, v);
    StepGrows(c, s, w, at, Other(v));
    SamplesGrow(c, s, w, at, v);
    if s.At(v).pc.Store? { NewSampleTimed(c, s, v); }
    TimedSamplesGrow(s.At(v), s.At(Other(v)), u.At(v), u.At(Other(v)), s.now, at);
  }

  lemma TimedStampsGrow(t: Thread, t': Thread, now: nat, at: nat)
    requires now < at && LogGrown(t, t', at) && LoggedBefore(t, now + 1) && LogCounts(t)
    requires |t.stamps| <= t.i || t'.acquires == t.acquires
    requires forall k :: 0 <= k < |t.stamps| ==> TimedStamp(t, k, t.stamps[k])
    requires t'.stamps == t.stamps ||
      (t.pc.ReadSignal? && |t.stamps| == t.i && t' == t.(pc := t'.pc, stamps := t.stamps + [at]))
    ensures forall k :: 0 <= k < |t'.stamps| ==> TimedStamp(t', k, t'.stamps[k])
  {
    forall k | 0 <= k < |t'.stamps| ensures TimedStamp(t', k, t'.stamps[k]) {
      if k < |t.stamps| {
        TimedStampKept(t, t', at, k, t.stamps[k]);
      } else {
        LatestIsTaken(t, at);
      }
    }
  }

  lemma StampsTimed(c: Config, s: State, w: Who, at: nat, v: Who)
    requires Core(c, s) && Times(s) && s.now < at && Enabled(s, w)
    ensures var u := Apply(c, s, w, at);
      forall k :: 0 <= k < |u.At(v).stamps| ==> TimedStamp(u.At(v), k, u.At(v).stamps[k])
  {
    StepGrows(c, s, w, at, v);
    StampsGrow(c, s, w, at, v);
    TimedStampsGrow(s.At(v), Apply(c, s, w, at).At(v), s.now, at);
  }

  lemma SignalsTimed(c: Config, s: State, w: Who, at: nat, v: Who)
    requires Core(c, s) && Times(s) && s.now < at && Enabled(s, w)
    ensures var u := Apply(c, s, w, at);
      forall k :: 0 <= k < |u.At(v).signals| ==> Splits(u.At(v).releases, u.At(v).signals[k], k)
  {
    var t, t' := s.At(v), Apply(c, s, w, at).At(v);
    StepGrows(c, s, w, at, v);
    assert ThreadFits(c, s, v) && LogFits(s, v) && Timed(s, v);
    forall k | 0 <= k < |t'.signals| ensures Splits(t'.releases, t'.signals[k], k) {
      if k < |t.signals| {
        SplitsKept(t.releases, t'.releases, t.signals[k], k, at);
      }
    }
  }

  lemma LoggedGrows(t: Thread, u: Thread, now: nat, at: nat)
    requires now < at && LoggedBefore(t, now + 1) && LogGrown(t, u, at)
    ensures LoggedBefore(u, at + 1)
  {
  }

  lemma OwnCounts(c: Config, s: State, w: Who, at: nat)
    requires LogCounts(s.At(w)) && ThreadFits(c, s, w) && Enabled(s, w)
    ensures LogCounts(Apply(c, s, w, at).At(w))
  {
  }

  lemma OtherCounts(c: Config, s: State, w: Who, at: nat)
    requires LogCounts(s.At(Other(w))) && Enabled(s, w)
    ensures LogCounts(Apply(c, s, w, at).At(Other(w)))
  {
  }

  lemma StepCounts(c: Config, s: State, w: Who, at: nat, v: Who)
    requires Core(c, s) && LogCounts(s.At(v)) && LoggedBefore(s.At(v), s.now + 1) && s.now < at && Enabled(s, w)
    ensures LogCounts(Apply(c, s, w, at).At(v)) && LoggedBefore(Apply(c, s, w, at).At(v), at + 1)
  {
    StepGrows(c, s, w, at, v);
    LoggedGrows(s.At(v), Apply(c, s, w, at).At(v), s.now, at);
    if w == v { OwnCounts(c, s, w, at); } else { OtherCounts(c, s, w, at); }
  }

  /** While one thread holds the lock the other logs nothing. */
  lemma OtherLogsNothing(c: Config, s: State, w: Who, at: nat)
    requires Core(c, s) && Enabled(s, w) && s.lock == HeldBy(Other(w))
    ensures var t, u := s.At(w), Apply(c, s, w, at).At(w);
      u.stamps == t.stamps && u.signals == t.signals && u.releases == t.releases && u.acquires == t.acquires
  {
    assert ThreadFits(c, s, w);
  }

  lemma LoggedLater(t: Thread, now: nat, at: nat)
    requires LoggedBefore(t, now + 1) && now < at
    ensures LoggedBefore(t, at)
  {
  }

  /** Only reading the clock leads to a pending end stamp. */
  lemma OwnEnd(c: Config, s: State, w: Who, at: nat)
    requires Enabled(s, w) && s.now < at
    ensures var t, u := s.At(w), Apply(c, s, w, at);
      u.At(w).pc.Store? ==>
        t.pc.ReadEnd? && u.At(w) == t.(end := at, pc := Store) && u.At(Other(w)) == s.At(Other(w)) && u.now == at
  {
  }

  lemma OwnStepEnd(c: Config, s: State, w: Who, at: nat)
    requires LogFits(s, w) && LogFits(s, Other(w)) && s.now < at && Enabled(s, w)
    ensures EndIsLatest(Apply(c, s, w, at), w)
  {
    OwnEnd(c, s, w, at);
    LoggedLater(s.At(w), s.now, at);
    LoggedLater(s.At(Other(w)), s.now, at);
  }

  lemma OtherStepEnd(c: Config, s: State, w: Who, at: nat)
    requires Core(c, s) && EndIsLatest(s, Other(w)) && s.now < at && Enabled(s, w)
    ensures EndIsLatest(Apply(c, s, w, at), Other(w))
  {
    assert ThreadFits(c, s, Other(w));
    if s.At(Other(w)).pc.Store? { OtherLogsNothing(c, s, w, at); }
  }

  lemma StepEnd(c: Config, s: State, w: Who, at: nat, v: Who)
    requires Core(c, s) && Times(s) && s.now < at && Enabled(s, w)
    ensures EndIsLatest(Apply(c, s, w, at), v)
  {
    assert LogFits(s, w) && LogFits(s, Other(w));
    if w == v { OwnStepEnd(c, s, w, at); } else { OtherStepEnd(c, s, w, at); }
  }

  lemma StepTimed(c: Config, s: State, w: Who, at: nat, v: Who)
    requires Core(c, s) && Times(s) && s.now < at && Enabled(s, w)
    ensures Timed(Apply(c, s, w, at), v) && LogFits(Apply(c, s, w, at), v)
  {
    assert LogFits(s, v);
    StepCounts(c, s, w, at, v);
    StepEnd(c, s, w, at, v);
    SamplesTimed(c, s, w, at, v);
    StampsTimed(c, s, w, at, v);
    SignalsTimed(c, s, w, at, v);
  }

  lemma StepTimes(c: Config, s: State, w: Who, at: nat)
    requires Core(c, s) && Times(s) && s.now < at && Enabled(s, w)
    ensures Times(Apply(c, s, w, at))
  {
    StepTimed(c, s, w, at, Producer);
    StepTimed(c, s, w, at, Consumer);
  }

  function ThreadRank(c: Config, s: State, w: Who): int {
    var t := s.At(w);
    11 * (c.n - t.i) +
    match t.pc
    case Acquire => 11
    case Check => if MustWait(c, s, w) then 10 else 7
    case Waiting => 9
    case Reacquire => 8
    case ReadEnd => 6
    case Store => 5
    case Work => 4
    case ReadSignal => 3
    case Signal => 2
    case Post => 1
    case Done => 1
    case Blocked => 0
  }

  function Rank(c: Config, s: State): int {
    ThreadRank(c, s, Producer) + ThreadRank(c, s, Consumer)
  }

  lemma StepRanks(c: Config, s: State, w: Who, at: nat)
    requires c.cap > 0 && Core(c, s) && Enabled(s, w)
    ensures Rank(c, Apply(c, s, w, at)) < Rank(c, s)
  {
  }

  lemma StepKeepsCore(c: Config, s: State, w: Who, at: nat)
    requires c.cap > 0 && Core(c, s) && Enabled(s, w)
    ensures Core(c, Apply(c, s, w, at))
  {
    StepShared(c, s, w, at);
    StepFitsOwn(c, s, w, at);
    StepFitsOther(c, s, w, at);
    StepWakes(c, s, w, at, Producer);
    StepWakes(c, s, w, at, Consumer);
  }

  lemma StepKeepsInv(c: Config, s: State, t: State)
    requires c.cap > 0 && Inv(c, s) && Next(c, s, t)
    ensures Inv(c, t) && Rank(c, t) < Rank(c, s)
  {
    var w, at: nat :| s.now < at && Enabled(s, w) && t == Apply(c, s, w, at);
    StepKeepsCore(c, s, w, at);
    StepRanks(c, s, w, at);
    StepPairs(c, s, w, at, Producer);
    StepPairs(c, s, w, at, Consumer);
    StepTimes(c, s, w, at);
  }

  lemma RunKeepsInv(c: Config, run: seq<State>, k: nat)
    requires c.cap > 0 && IsRun(c, run) && k < |run|
    ensures Inv(c, run[k]) && Rank(c, run[k]) + k <= Rank(c, run[0])
  {
    if k == 0 {
      InitHolds(c, run[0]);
    } else {
      RunKeepsInv(c, run, k - 1);
      StepKeepsInv(c, run[k - 1], run[k]);
    }
  }

  /** No deadlock: the only states without a next step are those where both threads are done. */
  lemma StuckMeansDone(c: Config, s: State)
    requires c.cap > 0 && Core(c, s) && (forall w :: !Enabled(s, w))
    ensures s.completions == 2 && s.producer.i == s.consumer.i == c.n && s.head == 0
    ensures |s.producer.samples| == |s.consumer.samples| == c.n
  {
    assert !Enabled(s, Producer) && !Enabled(s, Consumer);
    assert ThreadFits(c, s, Producer) && ThreadFits(c, s, Consumer);
  }

  /** FIFO bounds and conservation, in every state outside a critical section. */
  predicate Conserved(c: Config, s: State) {
    s.lock.Free? ==> 0 <= s.head <= c.cap && s.producer.i - s.consumer.i == s.head
  }

  /** Consumer sample `k` starts at the producer's stamp `k`. */
  predicate ConsumerPaired(s: State, k: nat) {
    && k < |s.consumer.samples| && k < |s.producer.stamps|
    && s.consumer.samples[k].value == s.consumer.samples[k].end - s.producer.stamps[k]
  }

  /** Producer sample `k + 1` starts at the consumer's stamp `k`. */
  predicate ProducerPaired(s: State, k: nat) {
    && k + 1 < |s.producer.samples| && k < |s.consumer.stamps|
    && s.producer.samples[k + 1].value == s.producer.samples[k + 1].end - s.consumer.stamps[k]
  }

  ghost predicate Alternates(s: State) {
    && (forall k: nat :: k < |s.consumer.samples| ==> ConsumerPaired(s, k))
    && (forall k: nat :: k + 1 < |s.producer.samples| ==> ProducerPaired(s, k))
  }

  predicate EndsBetween(t: Thread, o: Thread, k: nat, lag: nat)
    requires lag <= k < |t.samples|
  {
    && k - lag < |o.releases| && o.releases[k - lag] < t.samples[k].end
    && (k < |t.stamps| ==> t.samples[k].end < t.stamps[k])
  }

  /** With capacity one, sample k of the consumer ends between the producer's release k and its
      own stamp k, and sample k of the producer between the consumer's release k - 1 and its own
      stamp k. */
  ghost predicate Interleaved(s: State) {
    && (forall k: nat :: k < |s.consumer.samples| ==> EndsBetween(s.consumer, s.producer, k, 0))
    && (forall k: nat :: 1 <= k < |s.producer.samples| ==> EndsBetween(s.producer, s.consumer, k, 1))
  }

  lemma PairsInterleave(c: Config, s: State)
    requires c.cap == 1 && SamplesPair(c, s, Producer) && SamplesPair(c, s, Consumer)
    requires Timed(s, Producer) && Timed(s, Consumer)
    ensures Interleaved(s)
  {
    forall k: nat | k < |s.consumer.samples| ensures EndsBetween(s.consumer, s.producer, k, 0) {
      var x := s.At(Consumer).samples[k];
      assert SampleFits(c, Consumer, k, x, s.At(Producer).stamps);
      assert TimedSample(s.At(Consumer), s.At(Producer), k, x);
    }
    forall k: nat | 1 <= k < |s.producer.samples| ensures EndsBetween(s.producer, s.consumer, k, 1) {
      var x := s.At(Producer).samples[k];
      assert SampleFits(c, Producer, k, x, s.At(Consumer).stamps);
      assert TimedSample(s.At(Producer), s.At(Consumer), k, x);
    }
  }

  lemma CoreConserves(c: Config, s: State)
    requires Core(c, s)
    ensures Conserved(c, s)
  {
  }

  lemma PairsAlternate(c: Config, s: State)
    requires c.cap == 1 && SamplesPair(c, s, Producer) && SamplesPair(c, s, Consumer)
    ensures Alternates(s)
  {
    forall k: nat | k < |s.consumer.samples|
      ensures ConsumerPaired(s, k)
    {
      assert InWindow(c, Consumer, k, s.At(Consumer).samples[k].seen);
    }
    forall k: nat | k + 1 < |s.producer.samples|
      ensures ProducerPaired(s, k)
    {
      assert InWindow(c, Producer, k + 1, s.At(Producer).samples[k + 1].seen);
    }
  }

  /** The first producer sample starts at no stamp of the consumer's. */
  lemma FirstProducerSampleIsStale(c: Config, s: State)
    requires SamplesPair(c, s, Producer) && |s.producer.samples| > 0
    ensures s.producer.samples[0].seen == 0
  {
    assert SampleFits(c, Producer, 0, s.At(Producer).samples[0], s.At(Consumer).stamps);
  }

  lemma InitRank(c: Config, s: State)
    requires Init(c, s)
    ensures Rank(c, s) <= 22 * c.n + 22
  {
    assert s.At(Producer).i == 0 && s.At(Consumer).i == 0;
  }

  lemma RankNonNegative(c: Config, s: State)
    requires Core(c, s)
    ensures Rank(c, s) >= 0
  {
    assert ThreadFits(c, s, Producer) && ThreadFits(c, s, Consumer);
  }

  lemma EveryStateOfARun(c: Config, run: seq<State>, k: nat)
    requires c.cap > 0 && IsRun(c, run) && k < |run|
    ensures k < 22 * c.n + 23 && Conserved(c, run[k]) && (c.cap == 1 ==> Alternates(run[k]) && Interleaved(run[k]))
    ensures forall w :: SamplesPair(c, run[k], w) && Timed(run[k], w)
  {
    RunKeepsInv(c, run, k);
    InitRank(c, run[0]);
    RankNonNegative(c, run[k]);
    CoreConserves(c, run[k]);
    if c.cap == 1 {
      PairsAlternate(c, run[k]);
      PairsInterleave(c, run[k]);
    }
    forall w ensures SamplesPair(c, run[k], w) && Timed(run[k], w) {
      assert w == Producer || w == Consumer;
    }
  }

  /** Total correctness for every capacity, number of runs and interleaving: the FIFO stays
      within bounds and accounts for every item, samples only ever use the partner's
      latest stamps, the run is bounded, and it can stop only with both threads done, all
      items moved and every sample recorded. */
  lemma EveryRun(c: Config, run: seq<State>)
    requires c.cap > 0 && IsRun(c, run)
    ensures |run| <= 22 * c.n + 23
    ensures forall k :: 0 <= k < |run| ==> Conserved(c, run[k])
    ensures forall k, w :: 0 <= k < |run| ==> SamplesPair(c, run[k], w) && Timed(run[k], w)
    ensures c.cap == 1 ==> forall k :: 0 <= k < |run| ==> Alternates(run[k]) && Interleaved(run[k])
    ensures var last := run[|run| - 1];
            (forall w :: !Enabled(last, w)) ==>
              && last.completions == 2 && last.head == 0
              && last.producer.i == last.consumer.i == c.n
              && |last.producer.samples| == |last.consumer.samples| == c.n
  {
    forall k | 0 <= k < |run|
      ensures Conserved(c, run[k]) && (c.cap == 1 ==> Alternates(run[k]) && Interleaved(run[k]))
      ensures forall w :: SamplesPair(c, run[k], w) && Timed(run[k], w)
    {
      EveryStateOfARun(c, run, k);
    }
    var last := run[|run| - 1];
    EveryStateOfARun(c, run, |run| - 1);
    if forall w :: !Enabled(last, w) {
      RunKeepsInv(c, run, |run| - 1);
      StuckMeansDone(c, last);
    }
  }
}
