/**
 The signal benchmark: a signaller and a waiter of higher priority share one notification
 and one stamp cell.

 Scheduling is by fixed priority over the three threads, driver included: a thread may
 run only while no runnable thread outranks it.
 */
module Signal {

  datatype WaiterPc = WOff | WWait | WBlocked | WStamp | WDone | WPark
  datatype SignallerPc = GOff | GStart | GSignal | GStore | GDone | GPark
  datatype DriverPc = StartSignaller | StartWaiter | Collect(count: nat) | Finished

  datatype Waiter = Waiter(pc: WaiterPc, i: nat)
  datatype Signaller = Signaller(pc: SignallerPc, i: nat, start: nat)

  /** `cell` is the shared end stamp; `ends` and `starts` log the stamps taken, `waits` when the
      waiter waited, `signals` and `stores` when the signaller signalled and stored a sample. */
  datatype State = State(
    now: nat, driver: DriverPc, waiter: Waiter, signaller: Signaller, flag: bool, cell: nat,
    starts: seq<nat>, ends: seq<nat>, samples: seq<int>, waits: seq<nat>, signals: seq<nat>, stores: seq<nat>)

  datatype Thread = WaiterThread | SignallerThread | DriverThread

  /** Number of runs and the three priorities. */
  datatype Config = Config(n: nat, waiter: nat, signaller: nat, driver: nat) {
    function Prio(t: Thread): nat {
      match t case WaiterThread => waiter case SignallerThread => signaller case DriverThread => driver
    }

    function WaiterHead(i: nat): WaiterPc { if i < n then WWait else WDone }

    function SignallerHead(i: nat): SignallerPc { if i < n then GStart else GDone }

    /** The signaller is outranked by the other two. */
    predicate Outranked() { signaller < waiter && signaller < driver }
  }

  predicate NothingLogged(s: State) {
    s.starts == [] && s.ends == [] && s.samples == [] && s.waits == [] && s.signals == [] && s.stores == []
  }

  predicate Init(c: Config, s: State) {
    && s.driver.StartSignaller? && s.waiter.pc.WOff? && s.signaller.pc.GOff?
    && !s.flag && NothingLogged(s)
  }

  predicate Runnable(s: State, t: Thread) {
    match t
    case WaiterThread => !s.waiter.pc.WOff? && !s.waiter.pc.WBlocked? && (s.waiter.pc.WDone? ==> s.driver.Collect?)
    case SignallerThread => !s.signaller.pc.GOff? && (s.signaller.pc.GDone? ==> s.driver.Collect?)
    case DriverThread => s.driver.StartSignaller? || s.driver.StartWaiter?
  }

  predicate Enabled(c: Config, s: State, t: Thread) {
    Runnable(s, t) && forall u :: Runnable(s, u) ==> c.Prio(u) <= c.Prio(t)
  }

  function Complete(s: State): State
    requires s.driver.Collect?
  {
    s.(driver := if s.driver.count == 0 then Collect(1) else Finished)
  }

  function ApplyWaiter(c: Config, s: State): State
    requires Runnable(s, WaiterThread)
  {
    var w := s.waiter;
    match w.pc
    case WWait =>
      var t := s.(waits := s.waits + [s.now]);
      if s.flag then t.(flag := false, waiter := w.(pc := WStamp)) else t.(waiter := w.(pc := WBlocked))
    case WStamp =>
      s.(cell := s.now, ends := s.ends + [s.now], waiter := w.(i := w.i + 1, pc := c.WaiterHead(w.i + 1)))
    case WDone => Complete(s).(waiter := w.(pc := WPark))
    case WPark => s.(flag := false, waiter := w.(pc := WOff))
  }

  function ApplySignaller(c: Config, s: State): State
    requires Runnable(s, SignallerThread)
  {
    var g := s.signaller;
    match g.pc
    case GStart => s.(starts := s.starts + [s.now], signaller := g.(start := s.now, pc := GSignal))
    case GSignal =>
      var t := s.(signals := s.signals + [s.now], signaller := g.(pc := GStore));
      if s.waiter.pc.WBlocked? then t.(waiter := s.waiter.(pc := WStamp)) else t.(flag := true)
    case GStore =>
      s.(samples := s.samples + [s.cell - g.start], stores := s.stores + [s.now],
         signaller := g.(i := g.i + 1, pc := c.SignallerHead(g.i + 1)))
    case GDone => Complete(s).(signaller := g.(pc := GPark))
    case GPark => s.(flag := false, signaller := g.(pc := GOff))
  }

  function Apply(c: Config, s0: State, t: Thread, at: nat): State
    requires Runnable(s0, t)
  {
    var s := s0.(now := at);
    match t
    case WaiterThread => ApplyWaiter(c, s)
    case SignallerThread => ApplySignaller(c, s)
    case DriverThread =>
      if s.driver.StartSignaller? then
        s.(driver := StartWaiter, signaller := Signaller(c.SignallerHead(0), 0, s.signaller.start))
      else s.(driver := Collect(0), waiter := Waiter(c.WaiterHead(0), 0))
  }

  ghost predicate Next(c: Config, s: State, t: State) {
    exists a, at: nat :: s.now < at && Enabled(c, s, a) && t == Apply(c, s, a, at)
  }

  ghost predicate Follows(c: Config, run: seq<State>, k: int)
    requires 0 <= k < |run| - 1
  {
    Next(c, run[k], run[k + 1])
  }

  ghost predicate IsRun(c: Config, run: seq<State>) {
    && |run| > 0 && Init(c, run[0])
    && forall k :: 0 <= k < |run| - 1 ==> Follows(c, run, k)
  }

  // ---------------------------------------------------------------------------
  // The invariant
  // ---------------------------------------------------------------------------

  predicate WaiterIdle(s: State) { s.waiter.pc.WOff? || s.waiter.pc.WPark? }
  predicate SignallerIdle(s: State) { s.signaller.pc.GOff? || s.signaller.pc.GPark? }

  /** Where the two threads stand relative to each other once both are started. */
  predicate Lockstep(c: Config, s: State) {
    var w, g := s.waiter, s.signaller;
    && !s.flag
    && match g.pc
       case GStart => w.i == g.i < c.n && (w.pc.WWait? || w.pc.WBlocked?)
       case GSignal => w.i == g.i < c.n && w.pc.WBlocked?
       case GStore =>
         && g.i < c.n
         && ((w.pc.WStamp? && w.i == g.i)
             || (w.i == g.i + 1 < c.n && (w.pc.WWait? || w.pc.WBlocked?))
             || (w.i == g.i + 1 == c.n && (w.pc.WDone? || WaiterIdle(s))))
       case GDone | GPark | GOff => g.i == w.i == c.n && (w.pc.WDone? || WaiterIdle(s))
  }

  predicate Fits(c: Config, s: State) {
    match s.driver
    case StartSignaller => s.waiter.pc.WOff? && s.signaller.pc.GOff? && !s.flag
    case StartWaiter =>
      s.waiter.pc.WOff? && s.signaller.i == 0 && s.signaller.pc == c.SignallerHead(0) && !s.flag
    case Collect(count) =>
      && Lockstep(c, s)
      && count == (if WaiterIdle(s) then 1 else 0) + (if SignallerIdle(s) then 1 else 0) && count < 2
    case Finished =>
      WaiterIdle(s) && SignallerIdle(s) && s.waiter.i == s.signaller.i == c.n && !s.flag
  }

  predicate Counts(c: Config, s: State) {
    if s.driver.StartSignaller? || s.driver.StartWaiter? then NothingLogged(s)
    else
      && |s.starts| == s.signaller.i + (if s.signaller.pc.GSignal? || s.signaller.pc.GStore? then 1 else 0)
      && |s.signals| == s.signaller.i + (if s.signaller.pc.GStore? then 1 else 0)
      && |s.samples| == |s.stores| == s.signaller.i
      && |s.waits| == s.waiter.i + (if s.waiter.pc.WBlocked? || s.waiter.pc.WStamp? then 1 else 0)
      && |s.ends| == s.waiter.i
  }

  /** Run i, as far as it has come: the waiter waits; the signaller stamps and signals; the waiter
      stamps; then it waits again, and the signaller stores the sample and starts the next run. */
  predicate RunInOrder(s: State, i: nat) {
    && (i < |s.starts| ==> i < |s.waits| && s.waits[i] < s.starts[i])
    && (i < |s.signals| ==> i < |s.starts| && s.starts[i] < s.signals[i])
    && (i < |s.ends| ==> i < |s.signals| && s.signals[i] < s.ends[i])
    && (i + 1 < |s.waits| ==> i < |s.ends| && s.ends[i] < s.waits[i + 1])
    && (i < |s.samples| ==>
          && i < |s.ends| && i < |s.starts| && i < |s.stores|
          && s.samples[i] == s.ends[i] - s.starts[i] && s.ends[i] < s.stores[i])
    && (i + 1 < |s.starts| ==> i < |s.stores| && s.stores[i] < s.starts[i + 1])
  }

  /** Run `i` is measured from start stamp `i` to end stamp `i`; signal `i` and no other lies
      between them, and neither do a wait or the storing of a sample. */
  predicate SamplePairs(s: State, i: nat) {
    && i < |s.starts| && i < |s.ends| && i < |s.samples| && i < |s.waits| && i < |s.signals| && i < |s.stores|
    && s.waits[i] < s.starts[i] < s.signals[i] < s.ends[i] < s.stores[i]
    && s.samples[i] == s.ends[i] - s.starts[i]
    && (i + 1 < |s.waits| ==> s.ends[i] < s.waits[i + 1])
    && (i + 1 < |s.starts| ==> s.stores[i] < s.starts[i + 1])
  }

  ghost predicate UpTo(ts: seq<nat>, now: nat) { forall i :: 0 <= i < |ts| ==> ts[i] <= now }

  ghost predicate Past(s: State) {
    && UpTo(s.starts, s.now) && UpTo(s.ends, s.now) && UpTo(s.waits, s.now) && UpTo(s.signals, s.now)
    && UpTo(s.stores, s.now)
  }

  ghost predicate Paired(s: State) {
    && (forall i: nat :: RunInOrder(s, i))
    && Past(s)
    && (|s.ends| > 0 ==> s.cell == s.ends[|s.ends| - 1])
    && (s.signaller.pc.GSignal? || s.signaller.pc.GStore? ==>
          |s.starts| > 0 && s.signaller.start == s.starts[|s.starts| - 1])
  }

  ghost predicate Inv(c: Config, s: State) { Fits(c, s) && Counts(c, s) && Paired(s) }

  lemma InitHolds(c: Config, s: State)
    requires Init(c, s)
    ensures Inv(c, s)
  {
  }

  /** The signaller only runs while the waiter and the driver cannot. */
  lemma SignallerRunsAlone(c: Config, s: State)
    requires c.Outranked() && Enabled(c, s, SignallerThread)
    ensures !Runnable(s, WaiterThread) && !Runnable(s, DriverThread)
  {
  }

  lemma StepFits(c: Config, s: State, a: Thread, at: nat)
    requires c.Outranked() && Fits(c, s) && Counts(c, s) && Enabled(c, s, a)
    ensures Fits(c, Apply(c, s, a, at)) && Counts(c, Apply(c, s, a, at))
  {
    if a.SignallerThread? {
      SignallerRunsAlone(c, s);
    }
  }

  /** The logs grow by one event at a time, the latest so far, and in order. */
  ghost predicate LogGrown(s: State, t: State, at: nat) {
    && (t.waits == s.waits || (t.waits == s.waits + [at] && |s.ends| == |s.waits|))
    && (t.starts == s.starts ||
         (t.starts == s.starts + [at] && |s.waits| == |s.starts| + 1 && |s.stores| == |s.starts|))
    && (t.signals == s.signals || (t.signals == s.signals + [at] && |s.starts| == |s.signals| + 1))
    && (t.ends == s.ends || (t.ends == s.ends + [at] && |s.signals| == |s.ends| + 1))
    && ((t.samples == s.samples && t.stores == s.stores) ||
         (var n := |s.samples|;
          && t.stores == s.stores + [at] && |s.stores| == n && |s.ends| == |s.starts| == n + 1
          && |t.samples| == n + 1 && t.samples[..n] == s.samples && s.starts[n] + t.samples[n] == s.ends[n]))
    && |s.stores| == |s.samples|
  }

  lemma StepGrows(c: Config, s: State, a: Thread, at: nat)
    requires c.Outranked() && Inv(c, s) && s.now < at && Enabled(c, s, a)
    ensures LogGrown(s, Apply(c, s, a, at), at)
  {
    if a.SignallerThread? {
      SignallerRunsAlone(c, s);
    }
  }

  lemma OrderGrows(s: State, t: State, at: nat, i: nat)
    requires RunInOrder(s, i) && Past(s) && s.now < at && LogGrown(s, t, at)
    ensures RunInOrder(t, i)
  {
  }

  lemma PastGrows(s: State, t: State, at: nat)
    requires Past(s) && s.now < at == t.now && LogGrown(s, t, at)
    ensures Past(t)
  {
  }

  lemma StepCells(c: Config, s: State, a: Thread, at: nat)
    requires c.Outranked() && Inv(c, s) && s.now < at && Enabled(c, s, a)
    ensures var t := Apply(c, s, a, at);
      && t.now == at
      && (|t.ends| > 0 ==> t.cell == t.ends[|t.ends| - 1])
      && (t.signaller.pc.GSignal? || t.signaller.pc.GStore? ==>
            |t.starts| > 0 && t.signaller.start == t.starts[|t.starts| - 1])
  {
    if a.SignallerThread? {
      SignallerRunsAlone(c, s);
    }
  }

  lemma StepPairs(c: Config, s: State, a: Thread, at: nat)
    requires c.Outranked() && Inv(c, s) && s.now < at && Enabled(c, s, a)
    ensures Paired(Apply(c, s, a, at))
  {
    var t := Apply(c, s, a, at);
    StepGrows(c, s, a, at);
    StepCells(c, s, a, at);
    PastGrows(s, t, at);
    forall i: nat ensures RunInOrder(t, i) {
      OrderGrows(s, t, at, i);
    }
  }

  lemma PairedSamples(c: Config, s: State)
    requires Inv(c, s)
    ensures forall i: nat :: i < |s.samples| ==> SamplePairs(s, i)
  {
    forall i: nat | i < |s.samples| ensures SamplePairs(s, i) {
      assert RunInOrder(s, i);
    }
  }

  // ---------------------------------------------------------------------------
  // Every run ends
  // ---------------------------------------------------------------------------

  function WaiterRank(c: Config, s: State): int {
    if s.driver.StartSignaller? || s.driver.StartWaiter? then 3 * c.n + 5
    else
      3 * (c.n - s.waiter.i) +
      match s.waiter.pc
      case WWait => 4 case WBlocked => 3 case WStamp => 2 case WDone => 3 case WPark => 1 case WOff => 0
  }

  function SignallerRank(c: Config, s: State): int {
    if s.driver.StartSignaller? then 3 * c.n + 5
    else
      3 * (c.n - s.signaller.i) +
      match s.signaller.pc
      case GStart => 4 case GSignal => 3 case GStore => 2 case GDone => 3 case GPark => 1 case GOff => 0
  }

  function Rank(c: Config, s: State): int { WaiterRank(c, s) + SignallerRank(c, s) }

  lemma StepRanks(c: Config, s: State, a: Thread, at: nat)
    requires c.Outranked() && Fits(c, s) && Enabled(c, s, a)
    ensures Rank(c, Apply(c, s, a, at)) < Rank(c, s)
  {
    if a.SignallerThread? {
      SignallerRunsAlone(c, s);
    }
  }

  lemma StepKeepsInv(c: Config, s: State, t: State)
    requires c.Outranked() && Inv(c, s) && Next(c, s, t)
    ensures Inv(c, t) && Rank(c, t) < Rank(c, s)
  {
    var a, at: nat :| s.now < at && Enabled(c, s, a) && t == Apply(c, s, a, at);
    StepFits(c, s, a, at);
    StepPairs(c, s, a, at);
    StepRanks(c, s, a, at);
  }

  lemma InitRank(c: Config, s: State)
    requires Init(c, s)
    ensures Rank(c, s) <= 6 * c.n + 10
  {
  }

  /** The invariant holds and leaves at most this many steps. */
  ghost predicate Within(c: Config, s: State, steps: int) { Inv(c, s) && Rank(c, s) <= steps }

  lemma StartsWithin(c: Config, s: State)
    requires Init(c, s)
    ensures Within(c, s, 6 * c.n + 10)
  {
    InitHolds(c, s);
    InitRank(c, s);
  }

  lemma StepStaysWithin(c: Config, run: seq<State>, k: nat, steps: int)
    requires c.Outranked() && IsRun(c, run) && k + 1 < |run| && Within(c, run[k], steps)
    ensures Within(c, run[k + 1], steps - 1)
  {
    assert Follows(c, run, k);
    StepKeepsInv(c, run[k], run[k + 1]);
  }

  lemma {:induction false} RunKeepsInv(c: Config, run: seq<State>, k: nat)
    requires c.Outranked() && IsRun(c, run) && k < |run|
    ensures Within(c, run[k], 6 * c.n + 10 - k)
    decreases k
  {
    if k == 0 {
      StartsWithin(c, run[0]);
    } else {
      RunKeepsInv(c, run, k - 1);
      StepStaysWithin(c, run, k - 1, 6 * c.n + 10 - (k - 1));
    }
  }

  /** Someone of the highest priority among the runnable threads can run. */
  lemma SomeoneRuns(c: Config, s: State, t: Thread)
    requires Runnable(s, t)
    ensures exists u :: Enabled(c, s, u)
  {
    var u := if Runnable(s, WaiterThread) && c.Prio(WaiterThread) >= c.Prio(t) then WaiterThread else t;
    var v := if Runnable(s, SignallerThread) && c.Prio(SignallerThread) >= c.Prio(u) then SignallerThread else u;
    var w := if Runnable(s, DriverThread) && c.Prio(DriverThread) >= c.Prio(v) then DriverThread else v;
    assert Enabled(c, s, w);
  }

  lemma StuckMeansFinished(c: Config, s: State)
    requires Fits(c, s) && (forall a :: !Enabled(c, s, a))
    ensures s.driver.Finished?
  {
    if !s.driver.Finished? {
      if Runnable(s, DriverThread) {
        SomeoneRuns(c, s, DriverThread);
      } else if Runnable(s, WaiterThread) {
        SomeoneRuns(c, s, WaiterThread);
      } else {
        SomeoneRuns(c, s, SignallerThread);
      }
    }
  }

  /** Total correctness for every number of runs and every schedule that respects the
      priorities: sample i is end stamp i minus start stamp i, and the run ends with n of
      them and a clear notification. */
  lemma EveryRun(c: Config, run: seq<State>)
    requires c.Outranked() && IsRun(c, run)
    ensures |run| <= 6 * c.n + 11
    ensures forall k, i: nat :: 0 <= k < |run| && i < |run[k].samples| ==> SamplePairs(run[k], i)
    ensures var last := run[|run| - 1];
            (forall a :: !Enabled(c, last, a)) ==>
              last.driver.Finished? && !last.flag && |last.samples| == |last.starts| == |last.ends| == c.n
  {
    forall k | 0 <= k < |run| ensures forall i: nat :: i < |run[k].samples| ==> SamplePairs(run[k], i) {
      RunKeepsInv(c, run, k);
      PairedSamples(c, run[k]);
    }
    var last := run[|run| - 1];
    RunKeepsInv(c, run, |run| - 1);
    if forall a :: !Enabled(c, last, a) {
      StuckMeansFinished(c, last);
    }
  }

  /** A run that ends with a sample recorded before the waiter has written any stamp. */
  ghost predicate GoesWrong(c: Config, run: seq<State>) {
    IsRun(c, run) && |run[|run| - 1].samples| == 1 && run[|run| - 1].ends == []
  }

  /** The signaller gets ahead of the driver, which has not started the waiter yet. */
  lemma SlowDriverIsUnsafe(c: Config, s: State)
    requires c.n > 0 && c.driver <= c.signaller && Init(c, s)
    ensures exists run: seq<State> :: GoesWrong(c, run)
  {
    var s1 := s.(now := s.now + 1, driver := StartWaiter, signaller := Signaller(GStart, 0, s.signaller.start));
    var s2 := s1.(now := s.now + 2, starts := [s.now + 2], signaller := Signaller(GSignal, 0, s.now + 2));
    var s3 := s2.(now := s.now + 3, flag := true, signaller := Signaller(GStore, 0, s.now + 2), signals := [s.now + 3]);
    var s4 := Apply(c, s3, SignallerThread, s.now + 4);
    assert Next(c, s, s1) by { assert s1 == Apply(c, s, DriverThread, s.now + 1); }
    assert Next(c, s1, s2) by { assert s2 == Apply(c, s1, SignallerThread, s.now + 2); }
    assert Next(c, s2, s3) by { assert s3 == Apply(c, s2, SignallerThread, s.now + 3); }
    assert Next(c, s3, s4);
    assert GoesWrong(c, [s, s1, s2, s3, s4]);
  }

  /** The signaller gets ahead of the waiter, which has not reached its first wait yet. */
  lemma SlowWaiterIsUnsafe(c: Config, s: State)
    requires c.n > 0 && c.waiter <= c.signaller < c.driver && Init(c, s)
    ensures exists run: seq<State> :: GoesWrong(c, run)
  {
    var s1 := s.(now := s.now + 1, driver := StartWaiter, signaller := Signaller(GStart, 0, s.signaller.start));
    var s2 := s1.(now := s.now + 2, driver := Collect(0), waiter := Waiter(WWait, 0));
    var s3 := s2.(now := s.now + 3, starts := [s.now + 3], signaller := Signaller(GSignal, 0, s.now + 3));
    var s4 := s3.(now := s.now + 4, flag := true, signaller := Signaller(GStore, 0, s.now + 3), signals := [s.now + 4]);
    var s5 := Apply(c, s4, SignallerThread, s.now + 5);
    assert Next(c, s, s1) by { assert s1 == Apply(c, s, DriverThread, s.now + 1); }
    assert Next(c, s1, s2) by { assert s2 == Apply(c, s1, DriverThread, s.now + 2); }
    assert Next(c, s2, s3) by { assert s3 == Apply(c, s2, SignallerThread, s.now + 3); }
    assert Next(c, s3, s4) by { assert s4 == Apply(c, s3, SignallerThread, s.now + 4); }
    assert Next(c, s4, s5);
    assert GoesWrong(c, [s, s1, s2, s3, s4, s5]);
  }

  /** The samples of every run pair up exactly when the signaller is outranked by both the
      waiter and the driver. */
  lemma PairsExactlyWhenOutranked(c: Config)
    requires c.n > 0
    ensures c.Outranked() <==>
            forall run: seq<State>, k: nat, i: nat ::
              IsRun(c, run) && k < |run| && i < |run[k].samples| ==> SamplePairs(run[k], i)
  {
    if c.Outranked() {
      forall run: seq<State>, k: nat, i: nat | IsRun(c, run) && k < |run| && i < |run[k].samples|
        ensures SamplePairs(run[k], i)
      {
        EveryRun(c, run);
      }
    } else {
      var s := State(0, StartSignaller, Waiter(WOff, 0), Signaller(GOff, 0, 0), false, 0, [], [], [], [], [], []);
      if c.driver <= c.signaller {
        SlowDriverIsUnsafe(c, s);
      } else {
        SlowWaiterIsUnsafe(c, s);
      }
      var run: seq<State> :| GoesWrong(c, run);
      var k := |run| - 1;
      assert 0 < |run[k].samples| && !SamplePairs(run[k], 0);
    }
  }

  /** The benchmark's own priorities: waiter and driver at the maximum, signaller just below. */
  lemma BenchmarkOutranks(n: nat, maxPrio: nat)
    requires maxPrio > 0
    ensures Config(n, maxPrio, maxPrio - 1, maxPrio).Outranked()
  {
  }
}
