/**
 The scheduler benchmark: a high and a low priority thread hand a notification to each
 other, once per run, for a sequence of priorities of the high thread.

 A notification is a flag: signalling wakes the thread blocked on it or else sets the
 flag, waiting consumes the flag or else blocks.  The low thread may run only while the
 high thread cannot, or is not of higher priority; the driver may interleave anywhere.
 */
module Scheduler {
  import opened Modular

  // ---------------------------------------------------------------------------
  // Generated priorities
  // ---------------------------------------------------------------------------

  const MIN_PRIO: nat := 0

  /** How many priorities are tried: one per bitmap word. */
  function NumPrios(maxPrio: nat, wordBits: nat): nat
    requires wordBits > 0
  {
    (maxPrio + wordBits - 1) / wordBits
  }

  /** The i-th priority, as an 8-bit number. */
  function GenNextPrio(i: nat, wordBits: nat): nat { (MIN_PRIO + 1 + i * wordBits) % 256 }

  lemma LastPrioFits(i: nat, maxPrio: nat, wordBits: nat)
    requires wordBits > 0 && i < NumPrios(maxPrio, wordBits)
    ensures i * wordBits < maxPrio
  {
    var n := NumPrios(maxPrio, wordBits);
    assert n * wordBits <= maxPrio + wordBits - 1;
    assert i * wordBits <= (n - 1) * wordBits;
    assert (n - 1) * wordBits == n * wordBits - wordBits;
  }

  lemma WordOf(i: nat, wordBits: nat)
    requires wordBits > 1
    ensures (1 + i * wordBits) / wordBits == i
  {
    var q := (1 + i * wordBits) / wordBits;
    assert (q - i) * wordBits == q * wordBits - i * wordBits;
    Scale(q - i, wordBits);
  }

  /** Every generated priority is above the low thread's, at most the maximum, not
      truncated to eight bits, and in the bitmap word of its own index. */
  lemma GeneratedPrio(i: nat, maxPrio: nat, wordBits: nat)
    requires 1 < wordBits && maxPrio < 256 && i < NumPrios(maxPrio, wordBits)
    ensures GenNextPrio(i, wordBits) == MIN_PRIO + 1 + i * wordBits
    ensures MIN_PRIO < GenNextPrio(i, wordBits) <= maxPrio
    ensures GenNextPrio(i, wordBits) / wordBits == i
  {
    LastPrioFits(i, maxPrio, wordBits);
    WordOf(i, wordBits);
  }

  /** The priorities the benchmark goes through. */
  function GeneratedPrios(maxPrio: nat, wordBits: nat): seq<nat>
    requires wordBits > 0
  {
    seq(NumPrios(maxPrio, wordBits), i requires 0 <= i => GenNextPrio(i, wordBits))
  }

  // ---------------------------------------------------------------------------
  // The machine
  // ---------------------------------------------------------------------------

  datatype HighPc = HOff | HSignal | HStamp | HWait | HBlocked | HDone | HPark
  datatype LowPc = LOff | LWait | LBlocked | LEnd | LStore | LSignal | LDone | LPark
  datatype DriverPc = StartLow | StartHigh | Collect(count: nat) | Finished

  datatype Sample = Sample(value: int, end: nat)

  datatype High = High(pc: HighPc, i: nat)
  datatype Low = Low(pc: LowPc, i: nat, end: nat)

  /** One row of results, with the log of the stamps it was measured from, and of when the high
      thread signalled and blocked and the low thread replied. */
  datatype Row = Row(starts: seq<nat>, samples: seq<Sample>, signals: seq<nat>, blocks: seq<nat>, replies: seq<nat>)

  const EMPTY_ROW: Row := Row([], [], [], [], [])

  /** `cell` is the shared start stamp, `row` the row of the round under way, `rows` the
      finished ones. */
  datatype State = State(
    now: nat, round: nat, driver: DriverPc, high: High, low: Low,
    produce: bool, consume: bool, cell: nat, row: Row, rows: seq<Row>)

  /** Number of runs, and the high thread's priority in each round. */
  datatype Config = Config(n: nat, prios: seq<nat>) {
    function HighHead(i: nat): HighPc { if i < n then HSignal else HDone }

    function LowHead(i: nat): LowPc { if i < n then LWait else LDone }

    function DriverHead(round: nat): DriverPc { if round < |prios| then StartLow else Finished }

    /** The high thread outranks the low one in one round, and in every round. */
    predicate OutranksIn(r: nat) { r < |prios| ==> prios[r] > MIN_PRIO }

    predicate Outranks() { forall r :: 0 <= r < |prios| ==> OutranksIn(r) }
  }

  predicate Init(c: Config, s: State) {
    && s.round == 0 && s.driver == c.DriverHead(0)
    && s.high.pc.HOff? && s.low.pc.LOff?
    && !s.produce && !s.consume && s.row == EMPTY_ROW && s.rows == []
  }

  datatype Step = HighStep | LowStep | DriverStep

  predicate HighRunnable(s: State) { !s.high.pc.HOff? && !s.high.pc.HBlocked? }

  predicate LowMayRun(c: Config, s: State) {
    !HighRunnable(s) || (s.round < |c.prios| && c.prios[s.round] <= MIN_PRIO)
  }

  predicate Enabled(c: Config, s: State, a: Step) {
    match a
    case HighStep => HighRunnable(s) && (s.high.pc.HDone? ==> s.driver.Collect?)
    case LowStep =>
      && !s.low.pc.LOff? && !s.low.pc.LBlocked? && (s.low.pc.LDone? ==> s.driver.Collect?)
      && LowMayRun(c, s)
    case DriverStep => s.driver.StartLow? || s.driver.StartHigh?
  }

  /** A completion reaches the driver; the second one ends the round. */
  function Complete(c: Config, s: State): State
    requires s.driver.Collect?
  {
    if s.driver.count == 0 then s.(driver := Collect(1))
    else s.(driver := c.DriverHead(s.round + 1), round := s.round + 1,
            rows := s.rows + [s.row], row := EMPTY_ROW)
  }

  function ApplyHigh(c: Config, s: State): State
    requires Enabled(c, s, HighStep)
  {
    var h := s.high;
    match h.pc
    case HSignal =>
      var t := s.(row := s.row.(signals := s.row.signals + [s.now]), high := h.(pc := HStamp));
      if s.low.pc.LBlocked? then t.(low := s.low.(pc := LEnd)) else t.(produce := true)
    case HStamp => s.(cell := s.now, row := s.row.(starts := s.row.starts + [s.now]), high := h.(pc := HWait))
    case HWait =>
      if s.consume then s.(consume := false, high := h.(i := h.i + 1, pc := c.HighHead(h.i + 1)))
      else s.(row := s.row.(blocks := s.row.blocks + [s.now]), high := h.(pc := HBlocked))
    case HDone => Complete(c, s).(high := h.(pc := HPark))
    case HPark => s.(produce := false, high := h.(pc := HOff))
  }

  function ApplyLow(c: Config, s: State): State
    requires Enabled(c, s, LowStep)
  {
    var l := s.low;
    match l.pc
    case LWait =>
      if s.produce then s.(produce := false, low := l.(pc := LEnd)) else s.(low := l.(pc := LBlocked))
    case LEnd => s.(low := l.(end := s.now, pc := LStore))
    case LStore =>
      s.(row := s.row.(samples := s.row.samples + [Sample(l.end - s.cell, l.end)]), low := l.(pc := LSignal))
    case LSignal =>
      var t := s.(row := s.row.(replies := s.row.replies + [s.now]), low := l.(i := l.i + 1, pc := c.LowHead(l.i + 1)));
      if s.high.pc.HBlocked? then t.(high := s.high.(i := s.high.i + 1, pc := c.HighHead(s.high.i + 1)))
      else t.(consume := true)
    case LDone => Complete(c, s).(low := l.(pc := LPark))
    case LPark => s.(produce := false, low := l.(pc := LOff))
  }

  function Apply(c: Config, s0: State, a: Step, at: nat): State
    requires Enabled(c, s0, a)
  {
    var s := s0.(now := at);
    match a
    case HighStep => ApplyHigh(c, s)
    case LowStep => ApplyLow(c, s)
    case DriverStep =>
      if s.driver.StartLow? then s.(driver := StartHigh, low := Low(c.LowHead(0), 0, s.low.end))
      else s.(driver := Collect(0), high := High(c.HighHead(0), 0))
  }

  ghost predicate Next(c: Config, s: State, t: State) {
    exists a, at: nat :: s.now < at && Enabled(c, s, a) && t == Apply(c, s, a, at)
  }

  ghost predicate IsRun(c: Config, run: seq<State>) {
    && |run| > 0 && Init(c, run[0])
    && forall k :: 0 <= k < |run| - 1 ==> Next(c, run[k], run[k + 1])
  }

  // ---------------------------------------------------------------------------
  // The invariant
  // ---------------------------------------------------------------------------

  predicate HighIdle(s: State) { s.high.pc.HOff? || s.high.pc.HPark? }
  predicate LowIdle(s: State) { s.low.pc.LOff? || s.low.pc.LPark? }

  /** Where the two threads stand relative to each other while a round is under way. */
  predicate Lockstep(c: Config, s: State) {
    var h, l := s.high, s.low;
    && !s.consume
    && match h.pc
       case HSignal => !s.produce && h.i == l.i < c.n && (l.pc.LWait? || l.pc.LBlocked?)
       case HStamp | HWait =>
         h.i == l.i < c.n && ((s.produce && l.pc.LWait?) || (!s.produce && l.pc.LEnd?))
       case HBlocked =>
         && h.i == l.i < c.n
         && ((s.produce && l.pc.LWait?) || (!s.produce && (l.pc.LEnd? || l.pc.LStore? || l.pc.LSignal?)))
       case HDone => !s.produce && h.i == c.n == l.i && (l.pc.LDone? || LowIdle(s))
       case HPark | HOff => !s.produce && h.i == c.n == l.i && (l.pc.LDone? || LowIdle(s))
  }

  predicate DriverFits(c: Config, s: State) {
    match s.driver
    case StartLow => s.round < |c.prios| && HighIdle(s) && LowIdle(s) && !s.produce && !s.consume
    case StartHigh =>
      && s.round < |c.prios| && HighIdle(s) && !s.produce && !s.consume
      && s.low.i == 0 && (if c.n > 0 then s.low.pc.LWait? || s.low.pc.LBlocked? else s.low.pc.LDone?)
    case Collect(count) =>
      && s.round < |c.prios| && Lockstep(c, s)
      && count == (if HighIdle(s) then 1 else 0) + (if LowIdle(s) then 1 else 0) && count < 2
    case Finished => s.round == |c.prios| && HighIdle(s) && LowIdle(s) && !s.produce && !s.consume
  }

  function Stamps(s: State): nat
    requires s.driver.Collect?
  {
    s.high.i + if s.high.pc.HWait? || s.high.pc.HBlocked? then 1 else 0
  }

  function Samples(s: State): nat
    requires s.driver.Collect?
  {
    s.low.i + if s.low.pc.LSignal? then 1 else 0
  }

  /** Run i of a row, as far as it has come: the high thread signals, stamps and blocks; then the
      low thread reads the clock, records the sample and replies; then the next run begins. */
  predicate RunInOrder(row: Row, i: nat)
    requires |row.replies| <= |row.samples| <= |row.blocks| <= |row.starts| <= |row.signals| && i < |row.signals|
  {
    && (i < |row.starts| ==> row.signals[i] < row.starts[i])
    && (i < |row.blocks| ==> row.starts[i] < row.blocks[i])
    && (i < |row.samples| ==>
          row.blocks[i] < row.samples[i].end && row.samples[i].value == row.samples[i].end - row.starts[i])
    && (i < |row.replies| ==> row.samples[i].end < row.replies[i])
    && (i + 1 < |row.signals| ==> i < |row.replies| && row.replies[i] < row.signals[i + 1])
  }

  ghost predicate RowPairs(row: Row) {
    && |row.replies| <= |row.samples| <= |row.blocks| <= |row.starts| <= |row.signals|
    && forall i :: 0 <= i < |row.signals| ==> RunInOrder(row, i)
  }

  ghost predicate UpTo(ts: seq<nat>, now: nat) { forall i :: 0 <= i < |ts| ==> ts[i] <= now }

  /** Everything in a row has happened by `now`. */
  ghost predicate Past(row: Row, now: nat) {
    && UpTo(row.signals, now) && UpTo(row.starts, now) && UpTo(row.blocks, now) && UpTo(row.replies, now)
    && forall i :: 0 <= i < |row.samples| ==> row.samples[i].end <= now
  }

  /** How far the row has come. */
  predicate RowCounts(s: State)
    requires s.driver.Collect?
  {
    var h, row := s.high, s.row;
    && |row.starts| == Stamps(s) && |row.samples| == Samples(s) && |row.replies| == s.low.i
    && |row.signals| == h.i + (if h.pc.HStamp? || h.pc.HWait? || h.pc.HBlocked? then 1 else 0)
    && |row.blocks| == h.i + (if h.pc.HBlocked? then 1 else 0)
  }

  ghost predicate RowFits(c: Config, s: State) {
    && RowPairs(s.row) && Past(s.row, s.now)
    && (if s.driver.Collect? then
          && RowCounts(s)
          && (|s.row.starts| > 0 ==> s.cell == s.row.starts[|s.row.starts| - 1])
          && (s.low.pc.LStore? ==> |s.row.blocks| > 0 && s.row.blocks[|s.row.blocks| - 1] < s.low.end <= s.now)
        else s.row == EMPTY_ROW)
  }

  /** Finished rows are complete. */
  predicate RowFull(c: Config, row: Row) {
    |row.samples| == |row.starts| == |row.signals| == |row.blocks| == |row.replies| == c.n
  }

  ghost predicate RowsFit(c: Config, s: State) {
    && |s.rows| == s.round
    && forall r :: 0 <= r < |s.rows| ==> RowPairs(s.rows[r]) && RowFull(c, s.rows[r])
  }

  ghost predicate Inv(c: Config, s: State) {
    DriverFits(c, s) && RowFits(c, s) && RowsFit(c, s)
  }

  lemma InitHolds(c: Config, s: State)
    requires Init(c, s)
    ensures Inv(c, s)
  {
  }

  lemma StepFits(c: Config, s: State, a: Step, at: nat)
    requires c.OutranksIn(s.round) && DriverFits(c, s) && Enabled(c, s, a)
    ensures DriverFits(c, Apply(c, s, a, at))
  {
  }

  /** A row grows by one event at a time, the latest so far, and in order. */
  ghost predicate RowGrown(row: Row, row': Row, at: nat) {
    || row' == row
    || (row' == row.(signals := row.signals + [at]) && |row.replies| == |row.signals|)
    || (row' == row.(starts := row.starts + [at]) && |row.signals| == |row.starts| + 1)
    || (row' == row.(blocks := row.blocks + [at]) && |row.starts| == |row.blocks| + 1)
    || (row' == row.(replies := row.replies + [at]) && |row.samples| == |row.replies| + 1)
  }

  lemma RowGrows(row: Row, row': Row, now: nat, at: nat)
    requires RowPairs(row) && Past(row, now) && now < at && RowGrown(row, row', at)
    ensures RowPairs(row') && Past(row', at)
  {
    forall i | 0 <= i < |row'.signals| ensures RunInOrder(row', i) {
      if i < |row.signals| { assert RunInOrder(row, i); }
    }
  }

  lemma RowGrowsSample(row: Row, now: nat, at: nat, m: Sample)
    requires RowPairs(row) && Past(row, now) && now < at && |row.blocks| == |row.samples| + 1
    requires |row.replies| == |row.samples| && |row.signals| == |row.blocks|
    requires row.blocks[|row.samples|] < m.end <= now && m.value == m.end - row.starts[|row.samples|]
    ensures var row' := row.(samples := row.samples + [m]); RowPairs(row') && Past(row', at)
  {
    var row' := row.(samples := row.samples + [m]);
    forall i | 0 <= i < |row'.signals| ensures RunInOrder(row', i) {
      assert RunInOrder(row, i);
    }
  }

  lemma HighRow(c: Config, s: State, at: nat)
    requires c.OutranksIn(s.round) && DriverFits(c, s) && RowFits(c, s) && s.now < at && Enabled(c, s, HighStep)
    ensures RowFits(c, Apply(c, s, HighStep, at))
  {
    var t := Apply(c, s, HighStep, at);
    if t.round == s.round { RowGrows(s.row, t.row, s.now, at); }
  }

  lemma LowRow(c: Config, s: State, at: nat)
    requires c.OutranksIn(s.round) && DriverFits(c, s) && RowFits(c, s) && s.now < at && Enabled(c, s, LowStep)
    ensures RowFits(c, Apply(c, s, LowStep, at))
  {
    var t := Apply(c, s, LowStep, at);
    if s.low.pc.LStore? {
      RowGrowsSample(s.row, s.now, at, Sample(s.low.end - s.cell, s.low.end));
    } else if t.round == s.round {
      RowGrows(s.row, t.row, s.now, at);
    }
  }

  lemma StepRow(c: Config, s: State, a: Step, at: nat)
    requires c.OutranksIn(s.round) && DriverFits(c, s) && RowFits(c, s) && s.now < at && Enabled(c, s, a)
    ensures RowFits(c, Apply(c, s, a, at))
  {
    match a
    case HighStep => HighRow(c, s, at);
    case LowStep => LowRow(c, s, at);
    case DriverStep =>
  }

  lemma StepRows(c: Config, s: State, a: Step, at: nat)
    requires c.OutranksIn(s.round) && Inv(c, s) && s.now < at && Enabled(c, s, a)
    ensures RowsFit(c, Apply(c, s, a, at))
  {
  }

  // ---------------------------------------------------------------------------
  // Every run ends
  // ---------------------------------------------------------------------------

  function HighRank(c: Config, s: State): int {
    if !s.driver.Collect? then 4 * c.n + 6 + (if s.high.pc.HPark? then 1 else 0)
    else
      4 * (c.n - s.high.i) +
      match s.high.pc
      case HSignal => 5
      case HStamp => 4
      case HWait => 3
      case HBlocked => 2
      case HDone => 4
      case HPark => 1
      case HOff => 0
  }

  function LowRank(c: Config, s: State): int {
    if s.driver.StartLow? || s.driver.Finished? then 6 * c.n + 8 + (if s.low.pc.LPark? then 1 else 0)
    else
      6 * (c.n - s.low.i) +
      match s.low.pc
      case LWait => 7
      case LBlocked => 6
      case LEnd => 5
      case LStore => 4
      case LSignal => 3
      case LDone => 5
      case LPark => 1
      case LOff => 0
  }

  function RoundLength(c: Config): nat { 10 * c.n + 16 }

  function Rank(c: Config, s: State): int {
    (|c.prios| - s.round) * RoundLength(c) + HighRank(c, s) + LowRank(c, s)
  }

  lemma StepRanks(c: Config, s: State, a: Step, at: nat)
    requires c.OutranksIn(s.round) && DriverFits(c, s) && Enabled(c, s, a)
    ensures Rank(c, Apply(c, s, a, at)) < Rank(c, s)
  {
    var t := Apply(c, s, a, at);
    if t.round != s.round {
      assert (|c.prios| - s.round) * RoundLength(c) == (|c.prios| - t.round) * RoundLength(c) + RoundLength(c);
    }
  }

  lemma StepKeepsInv(c: Config, s: State, t: State)
    requires c.OutranksIn(s.round) && Inv(c, s) && Next(c, s, t)
    ensures Inv(c, t) && Rank(c, t) < Rank(c, s)
  {
    var a, at: nat :| s.now < at && Enabled(c, s, a) && t == Apply(c, s, a, at);
    StepFits(c, s, a, at);
    StepRow(c, s, a, at);
    StepRows(c, s, a, at);
    StepRanks(c, s, a, at);
  }

  lemma RunKeepsInv(c: Config, run: seq<State>, k: nat)
    requires c.Outranks() && IsRun(c, run) && k < |run|
    ensures Inv(c, run[k]) && Rank(c, run[k]) + k <= Rank(c, run[0])
  {
    if k == 0 {
      InitHolds(c, run[0]);
    } else {
      RunKeepsInv(c, run, k - 1);
      assert c.OutranksIn(run[k - 1].round);
      StepKeepsInv(c, run[k - 1], run[k]);
    }
  }

  lemma StuckMeansFinished(c: Config, s: State)
    requires DriverFits(c, s)
    requires !Enabled(c, s, HighStep) && !Enabled(c, s, LowStep) && !Enabled(c, s, DriverStep)
    ensures s.driver.Finished?
  {
  }

  lemma ThreadRanksNonNegative(c: Config, s: State)
    requires DriverFits(c, s)
    ensures HighRank(c, s) >= 0 && LowRank(c, s) >= 0
  {
  }

  lemma RankNonNegative(c: Config, s: State)
    requires DriverFits(c, s)
    ensures Rank(c, s) >= 0
  {
    ProductNonNegative(|c.prios| - s.round, RoundLength(c));
    ThreadRanksNonNegative(c, s);
  }

  lemma RankBounds(c: Config, s: State, t: State)
    requires Init(c, s) && DriverFits(c, t)
    ensures Rank(c, t) >= 0
    ensures Rank(c, s) <= (|c.prios| + 1) * RoundLength(c)
  {
    assert (|c.prios| + 1) * RoundLength(c) == |c.prios| * RoundLength(c) + RoundLength(c);
    RankNonNegative(c, t);
  }

  /** Both notifications are clear between rounds, and every recorded sample, of this round
      and of the finished ones, runs from its own start stamp. */
  ghost predicate Safe(c: Config, s: State) {
    && (!s.driver.Collect? ==> !s.produce && !s.consume)
    && RowPairs(s.row)
    && RowsFit(c, s)
  }

  /** Total correctness under fixed priorities, for every number of runs and rounds and
      every interleaving of the driver. */
  lemma EveryRun(c: Config, run: seq<State>)
    requires c.Outranks() && IsRun(c, run)
    ensures |run| <= (|c.prios| + 1) * RoundLength(c) + 1
    ensures forall k :: 0 <= k < |run| ==> Safe(c, run[k])
    ensures var last := run[|run| - 1];
            (forall a :: !Enabled(c, last, a)) ==> last.driver.Finished? && |last.rows| == |c.prios|
  {
    forall k | 0 <= k < |run| ensures Safe(c, run[k]) {
      RunKeepsInv(c, run, k);
    }
    var last := run[|run| - 1];
    RunKeepsInv(c, run, |run| - 1);
    RankBounds(c, run[0], last);
    if forall a :: !Enabled(c, last, a) {
      StuckMeansFinished(c, last);
    }
  }

  /** The benchmark's own priorities satisfy the hypothesis. */
  lemma BenchmarkOutranks(n: nat, maxPrio: nat, wordBits: nat)
    requires 1 < wordBits && maxPrio < 256
    ensures Config(n, GeneratedPrios(maxPrio, wordBits)).Outranks()
  {
    var ps := GeneratedPrios(maxPrio, wordBits);
    forall r | 0 <= r < |ps| ensures Config(n, ps).OutranksIn(r) {
      GeneratedPrio(r, maxPrio, wordBits);
    }
  }

  // ---------------------------------------------------------------------------
  // Without the higher priority
  // ---------------------------------------------------------------------------

  function Last(run: seq<State>): State
    requires run != []
  {
    run[|run| - 1]
  }

  lemma ExtendRun(c: Config, run: seq<State>, a: Step, t: State)
    requires IsRun(c, run) && Enabled(c, Last(run), a) && t == Apply(c, Last(run), a, Last(run).now + 1)
    ensures IsRun(c, run + [t]) && Last(run + [t]) == t
  {
    var ext := run + [t];
    forall k | 0 <= k < |ext| - 1 ensures Next(c, ext[k], ext[k + 1]) {
      if k < |run| - 1 {
        assert Next(c, run[k], run[k + 1]);
      }
    }
  }

  lemma StuckMeansFinishedOrDriver(c: Config, s: State)
    requires DriverFits(c, s) && !Enabled(c, s, HighStep) && !Enabled(c, s, LowStep)
    ensures Enabled(c, s, DriverStep) || s.driver.Finished?
  {
    if !Enabled(c, s, DriverStep) { StuckMeansFinished(c, s); }
  }

  /** Before the last round is over, some step leads on. */
  lemma OneStepOn(c: Config, s: State) returns (a: Step, t: State)
    requires Inv(c, s) && s.round < |c.prios| && c.OutranksIn(s.round)
    ensures Enabled(c, s, a) && t == Apply(c, s, a, s.now + 1)
    ensures Inv(c, t) && 0 <= Rank(c, t) < Rank(c, s)
    ensures t.round == s.round || (t.round == s.round + 1 && t.driver == c.DriverHead(t.round))
  {
    if !Enabled(c, s, HighStep) && !Enabled(c, s, LowStep) { StuckMeansFinishedOrDriver(c, s); }
    a := if Enabled(c, s, HighStep) then HighStep else if Enabled(c, s, LowStep) then LowStep else DriverStep;
    t := Apply(c, s, a, s.now + 1);
    assert Next(c, s, t);
    StepKeepsInv(c, s, t);
    RankNonNegative(c, t);
  }

  /** While the high thread outranks the low one, any run can be continued into round r. */
  lemma {:induction false} ReachRound(c: Config, run: seq<State>, r: nat) returns (ext: seq<State>)
    requires r < |c.prios| && forall q :: 0 <= q < r ==> c.OutranksIn(q)
    requires IsRun(c, run) && Inv(c, Last(run)) && Last(run).round <= r
    requires Last(run).round == r ==> Last(run).driver.StartLow?
    ensures IsRun(c, ext) && Inv(c, Last(ext)) && Last(ext).round == r && Last(ext).driver.StartLow?
    decreases Rank(c, Last(run)) + 1
  {
    var s := Last(run);
    if s.round == r { return run; }
    assert c.OutranksIn(s.round);
    var a, t := OneStepOn(c, s);
    ExtendRun(c, run, a, t);
    ext := ReachRound(c, run + [t], r);
  }

  /** In a round in which the high thread does not outrank the low one, the low thread can
      record a sample before any stamp is written. */
  lemma EqualPriosAreUnsafe(c: Config, run: seq<State>) returns (bad: seq<State>)
    requires IsRun(c, run) && Inv(c, Last(run)) && Last(run).driver.StartLow?
    requires c.n > 0 && !c.OutranksIn(Last(run).round)
    ensures IsRun(c, bad) && |Last(bad).row.samples| == 1 && Last(bad).row.starts == []
  {
    var s := Last(run);
    var s1 := s.(now := s.now + 1, driver := StartHigh, low := Low(LWait, 0, s.low.end));
    var s2 := s1.(now := s.now + 2, driver := Collect(0), high := High(HSignal, 0));
    var s3 := s2.(now := s.now + 3, produce := true, high := High(HStamp, 0), row := s.row.(signals := [s.now + 3]));
    var s4 := s3.(now := s.now + 4, produce := false, low := s1.low.(pc := LEnd));
    var s5 := s4.(now := s.now + 5, low := Low(LStore, 0, s.now + 5));
    var s6 := Apply(c, s5, LowStep, s.now + 6);
    ExtendRun(c, run, DriverStep, s1);
    ExtendRun(c, run + [s1], DriverStep, s2);
    ExtendRun(c, run + [s1] + [s2], HighStep, s3);
    ExtendRun(c, run + [s1] + [s2] + [s3], LowStep, s4);
    ExtendRun(c, run + [s1] + [s2] + [s3] + [s4], LowStep, s5);
    ExtendRun(c, run + [s1] + [s2] + [s3] + [s4] + [s5], LowStep, s6);
    bad := run + [s1] + [s2] + [s3] + [s4] + [s5] + [s6];
  }

  lemma {:induction false} FirstUnsafeRound(c: Config, r: nat) returns (q: nat)
    requires r < |c.prios| && !c.OutranksIn(r)
    ensures q < |c.prios| && !c.OutranksIn(q) && forall p :: 0 <= p < q ==> c.OutranksIn(p)
    decreases r
  {
    if p :| 0 <= p < r && !c.OutranksIn(p) {
      q := FirstUnsafeRound(c, p);
    } else {
      q := r;
    }
  }

  /** The samples of every run pair up exactly when the high thread outranks the low one in
      every round. */
  lemma PairsExactlyWhenOutranked(c: Config)
    requires c.n > 0
    ensures c.Outranks() <==>
            forall run: seq<State>, k: nat :: IsRun(c, run) && k < |run| ==> RowPairs(run[k].row)
  {
    if c.Outranks() {
      forall run: seq<State>, k: nat | IsRun(c, run) && k < |run| ensures RowPairs(run[k].row) {
        RunKeepsInv(c, run, k);
      }
    } else {
      var r :| 0 <= r < |c.prios| && !c.OutranksIn(r);
      var q := FirstUnsafeRound(c, r);
      var s := State(0, 0, StartLow, High(HOff, 0), Low(LOff, 0, 0), false, false, 0, EMPTY_ROW, []);
      InitHolds(c, s);
      assert IsRun(c, [s]);
      var run := ReachRound(c, [s], q);
      var bad := EqualPriosAreUnsafe(c, run);
      assert !RowPairs(bad[|bad| - 1].row);
    }
  }
}
