/**
 The broadcast benchmark: any number of waiters, one broadcaster, and the driver that
 restarts them all for each of any number of runs.

 The lock and the condition variable are taken by contract, as for the producer and
 consumer; a broadcast moves every sleeper to re-acquiring the lock.  A thread that has
 finished a run stays blocked until the driver starts it again.
 */
module Broadcast {
  import opened Modular
  import opened Sums

  // ---------------------------------------------------------------------------
  // The machine
  // ---------------------------------------------------------------------------

  datatype WaiterPc = Acquire | Check | Waiting | Reacquire | ReadEnd | Store | Post | Done | Blocked
  datatype BroadcasterPc = BAcquire | BSet | BStamp | BCast | BReadEnd | BStore | BPost | BDone | BBlocked
  datatype DriverPc = Reset | StartNext(i: nat) | Collect(count: nat) | Finished

  datatype Sample = Sample(value: int, end: nat)

  /** An acquisition of the lock during a run. */
  datatype Acquisition = Acquisition(run: nat, at: nat)

  /** `samples` is the row of results this thread fills, one entry per run. The logs record
      when it took the lock and, at the end of a run, released it. */
  datatype Waiter = Waiter(pc: WaiterPc, end: nat, samples: seq<Sample>, acquires: seq<Acquisition>, posts: seq<nat>)
  datatype Broadcaster = Broadcaster(pc: BroadcasterPc, end: nat, samples: seq<Sample>, acquires: seq<nat>, posts: seq<nat>)

  datatype Lock = Free | HeldByWaiter(i: nat) | HeldByBroadcaster

  /** `start` is the shared stamp cell; `starts` logs what was written to it, run by run, and
      `casts` when the broadcast of each run happened. */
  datatype State = State(
    now: nat, run: nat, driver: DriverPc, waiters: seq<Waiter>, caster: Broadcaster,
    lock: Lock, shared: nat, start: nat, starts: seq<nat>, casts: seq<nat>)

  /** Number of waiters and of runs. */
  datatype Config = Config(k: nat, n: nat)

  function NextRun(c: Config, run: nat): DriverPc { if run < c.n then Reset else Finished }

  predicate NothingLogged(w: Waiter) { w.samples == [] && w.acquires == [] && w.posts == [] }

  predicate Init(c: Config, s: State) {
    && s.run == 0 && s.driver == NextRun(c, 0) && s.lock.Free? && s.starts == [] && s.casts == []
    && |s.waiters| == c.k
    && (forall i :: 0 <= i < c.k ==> s.waiters[i].pc.Blocked? && NothingLogged(s.waiters[i]))
    && s.caster.pc.BBlocked? && s.caster.samples == [] && s.caster.acquires == [] && s.caster.posts == []
  }

  datatype Step = WaiterStep(i: nat) | CasterStep | DriverStep

  predicate Enabled(s: State, a: Step) {
    match a
    case WaiterStep(i) =>
      && i < |s.waiters|
      && (match s.waiters[i].pc
          case Acquire | Reacquire => s.lock.Free?
          case Waiting | Blocked => false
          case Done => s.driver.Collect?
          case _ => true)
    case CasterStep =>
      (match s.caster.pc
       case BAcquire => s.lock.Free?
       case BBlocked => false
       case BDone => s.driver.Collect?
       case _ => true)
    case DriverStep => s.driver.Reset? || s.driver.StartNext?
  }

  /** A completion reaches the driver; the last one ends the run. */
  function Complete(c: Config, s: State): State
    requires s.driver.Collect?
  {
    if s.driver.count == c.k then s.(run := s.run + 1, driver := NextRun(c, s.run + 1))
    else s.(driver := Collect(s.driver.count + 1))
  }

  function SetWaiter(s: State, i: nat, w: Waiter): State
    requires i < |s.waiters|
  {
    s.(waiters := s.waiters[i := w])
  }

  function ApplyWaiter(c: Config, s: State, i: nat): State
    requires Enabled(s, WaiterStep(i))
  {
    var w := s.waiters[i];
    match w.pc
    case Acquire | Reacquire =>
      SetWaiter(s.(lock := HeldByWaiter(i)), i, w.(pc := Check, acquires := w.acquires + [Acquisition(s.run, s.now)]))
    case Check =>
      if s.shared == 0 then SetWaiter(s.(lock := Free), i, w.(pc := Waiting))
      else SetWaiter(s, i, w.(pc := ReadEnd))
    case ReadEnd => SetWaiter(s, i, w.(end := s.now, pc := Store))
    case Store => SetWaiter(s, i, w.(samples := w.samples + [Sample(w.end - s.start, w.end)], pc := Post))
    case Post => SetWaiter(s.(lock := Free), i, w.(pc := Done, posts := w.posts + [s.now]))
    case Done => SetWaiter(Complete(c, s), i, w.(pc := Blocked))
  }

  function Wake(w: Waiter): Waiter { if w.pc.Waiting? then w.(pc := Reacquire) else w }

  function ApplyCaster(c: Config, s: State): State
    requires Enabled(s, CasterStep)
  {
    var b := s.caster;
    match b.pc
    case BAcquire => s.(lock := HeldByBroadcaster, caster := b.(pc := BSet, acquires := b.acquires + [s.now]))
    case BSet => s.(shared := c.k, caster := b.(pc := BStamp))
    case BStamp => s.(start := s.now, starts := s.starts + [s.now], caster := b.(pc := BCast))
    case BCast =>
      s.(waiters := seq(|s.waiters|, i requires 0 <= i < |s.waiters| => Wake(s.waiters[i])),
         casts := s.casts + [s.now], caster := b.(pc := BReadEnd))
    case BReadEnd => s.(caster := b.(end := s.now, pc := BStore))
    case BStore => s.(caster := b.(samples := b.samples + [Sample(b.end - s.start, b.end)], pc := BPost))
    case BPost => s.(lock := Free, caster := b.(pc := BDone, posts := b.posts + [s.now]))
    case BDone => Complete(c, s).(caster := b.(pc := BBlocked))
  }

  function ApplyDriver(c: Config, s: State): State
    requires Enabled(s, DriverStep)
  {
    match s.driver
    case Reset => s.(shared := 0, driver := StartNext(0))
    case StartNext(i) =>
      if i < |s.waiters| then SetWaiter(s.(driver := StartNext(i + 1)), i, s.waiters[i].(pc := Acquire))
      else s.(driver := Collect(0), caster := s.caster.(pc := BAcquire))
  }

  function Apply(c: Config, s: State, a: Step, at: nat): State
    requires Enabled(s, a)
  {
    var s' := s.(now := at);
    match a
    case WaiterStep(i) => ApplyWaiter(c, s', i)
    case CasterStep => ApplyCaster(c, s')
    case DriverStep => ApplyDriver(c, s')
  }

  ghost predicate Next(c: Config, s: State, t: State) {
    exists a, at: nat :: s.now < at && Enabled(s, a) && t == Apply(c, s, a, at)
  }

  ghost predicate IsRun(c: Config, run: seq<State>) {
    && |run| > 0 && Init(c, run[0])
    && forall k :: 0 <= k < |run| - 1 ==> Next(c, run[k], run[k + 1])
  }

  // ---------------------------------------------------------------------------
  // The invariant
  // ---------------------------------------------------------------------------

  predicate WaiterHolds(pc: WaiterPc) {
    pc.Check? || pc.ReadEnd? || pc.Store? || pc.Post?
  }

  predicate CasterHolds(pc: BroadcasterPc) {
    pc.BSet? || pc.BStamp? || pc.BCast? || pc.BReadEnd? || pc.BStore? || pc.BPost?
  }

  /** How far this run's broadcast has come. */
  datatype Phase = Before | Announced | Stamped | Sent

  function PhaseOf(s: State): Phase {
    match s.caster.pc
    case BAcquire | BSet => Before
    case BStamp => Announced
    case BCast => Stamped
    case BReadEnd | BStore => Sent
    case BPost | BDone => Sent
    case BBlocked => if |s.caster.samples| > s.run then Sent else Before
  }

  /** A waiter that has recorded this run's sample. */
  predicate Recorded(s: State, w: Waiter) { |w.samples| == s.run + 1 }

  /** What a waiter may be doing in each phase of the broadcast. */
  predicate WaiterFits(c: Config, s: State, i: nat)
    requires i < |s.waiters|
  {
    var w := s.waiters[i];
    && (WaiterHolds(w.pc) <==> s.lock == HeldByWaiter(i))
    && |w.samples| == s.run + (if Recorded(s, w) then 1 else 0)
    && (w.pc.Post? || w.pc.Done? ==> Recorded(s, w))
    && (!(w.pc.Post? || w.pc.Done? || w.pc.Blocked?) ==> !Recorded(s, w))
    && (match PhaseOf(s)
        case Before => w.pc.Acquire? || w.pc.Check? || w.pc.Waiting? || (w.pc.Blocked? && !Recorded(s, w))
        case Announced => w.pc.Acquire? || w.pc.Waiting?
        case Stamped => w.pc.Acquire? || w.pc.Waiting?
        case Sent => !w.pc.Waiting? && (w.pc.Blocked? ==> Recorded(s, w)))
  }

  /** Which waiters have reported completion of this run. */
  function Flags(s: State): (f: seq<nat>)
    ensures |f| == |s.waiters|
  {
    seq(|s.waiters|, i requires 0 <= i < |s.waiters| =>
      if s.waiters[i].pc.Blocked? && Recorded(s, s.waiters[i]) then 1 else 0)
  }

  /** No waiter of an earlier run is active while the driver resets the shared word or
      restarts threads. */
  predicate DriverFits(c: Config, s: State) {
    match s.driver
    case Reset =>
      && s.run < c.n && PhaseOf(s).Before? && s.caster.pc.BBlocked?
      && forall i :: 0 <= i < |s.waiters| ==> s.waiters[i].pc.Blocked?
    case StartNext(x) =>
      && s.run < c.n && x <= c.k && s.shared == 0 && PhaseOf(s).Before? && s.caster.pc.BBlocked?
      && (forall i :: x <= i < |s.waiters| ==> s.waiters[i].pc.Blocked?)
      && (forall i :: 0 <= i < x && i < |s.waiters| ==> !s.waiters[i].pc.Blocked?)
    case Collect(count) =>
      && s.run < c.n
      && (PhaseOf(s).Before? ==> s.shared == 0 && !s.caster.pc.BBlocked?)
      && (PhaseOf(s).Before? ==> forall i :: 0 <= i < |s.waiters| ==> !s.waiters[i].pc.Blocked?)
      && (!PhaseOf(s).Before? ==> s.shared == c.k)
      && count == Sum(Flags(s)) + (if s.caster.pc.BBlocked? then 1 else 0)
      && count <= c.k
    case Finished =>
      && s.run == c.n && PhaseOf(s).Before? && s.caster.pc.BBlocked?
      && forall i :: 0 <= i < |s.waiters| ==> s.waiters[i].pc.Blocked?
  }

  predicate CasterFits(s: State) {
    && (CasterHolds(s.caster.pc) <==> s.lock.HeldByBroadcaster?)
    && (s.lock.HeldByWaiter? ==> s.lock.i < |s.waiters|)
    && |s.starts| == s.run + (if PhaseOf(s).Stamped? || PhaseOf(s).Sent? then 1 else 0)
    && (|s.starts| > s.run ==> s.start == s.starts[s.run])
    && |s.caster.samples| == s.run +
         (if s.caster.pc.BPost? || s.caster.pc.BDone? || (s.caster.pc.BBlocked? && PhaseOf(s).Sent?) then 1 else 0)
    && (forall r :: 0 <= r < |s.starts| ==> s.starts[r] <= s.now)
  }

  predicate Pairs(start: nat, x: Sample) { start < x.end && x.value == x.end - start }

  /** A row of results: entry r is measured from the stamp of run r and ends after it. */
  ghost predicate RowPairs(starts: seq<nat>, samples: seq<Sample>) {
    && |samples| <= |starts|
    && forall r :: 0 <= r < |samples| ==> Pairs(starts[r], samples[r])
  }

  ghost predicate ResultsPair(s: State) {
    && RowPairs(s.starts, s.caster.samples)
    && (forall i :: 0 <= i < |s.waiters| ==> RowPairs(s.starts, s.waiters[i].samples))
    && (s.caster.pc.BStore? ==> s.start < s.caster.end <= s.now)
    && (forall i :: 0 <= i < |s.waiters| && s.waiters[i].pc.Store? ==> s.start < s.waiters[i].end <= s.now)
  }

  predicate Core(c: Config, s: State) {
    && |s.waiters| == c.k
    && CasterFits(s) && DriverFits(c, s)
    && forall i :: 0 <= i < |s.waiters| ==> WaiterFits(c, s, i)
  }

  /** Sample r of a waiter ends after the broadcast of its run, after the waiter has taken the
      lock for the last time in that run, once the broadcast has happened, and before it
      releases it. */
  ghost predicate SampleTimed(w: Waiter, casts: seq<nat>, r: nat, x: Sample) {
    && r < |casts| && casts[r] < x.end
    && (exists k :: 0 <= k < |w.acquires| && w.acquires[k].run == r && casts[r] < w.acquires[k].at)
    && (forall k :: 0 <= k < |w.acquires| ==>
          if w.acquires[k].run <= r then w.acquires[k].at < x.end else x.end < w.acquires[k].at)
    && (r < |w.posts| ==> x.end < w.posts[r])
  }

  /** How far a waiter's logs have come by `now`, in a run with these broadcasts. */
  ghost predicate WaiterTimes(w: Waiter, casts: seq<nat>, run: nat, now: nat) {
    && (forall k :: 0 <= k < |w.acquires| ==> w.acquires[k].run <= run && w.acquires[k].at <= now)
    && |w.posts| + (if w.pc.Post? then 1 else 0) == |w.samples|
    && (WaiterHolds(w.pc) ==> |w.acquires| > 0 && w.acquires[|w.acquires| - 1].run == run)
    && (|casts| > run && (w.pc.Check? || w.pc.ReadEnd? || w.pc.Store?) ==>
          |w.acquires| > 0 && casts[run] < w.acquires[|w.acquires| - 1].at)
    && (w.pc.Store? ==>
          && |casts| > run && casts[run] < w.end <= now
          && forall k :: 0 <= k < |w.acquires| ==> w.acquires[k].at < w.end)
    && (forall r :: 0 <= r < |w.samples| ==> SampleTimed(w, casts, r, w.samples[r]) && w.samples[r].end <= now)
  }

  /** How far the broadcaster's logs have come. */
  predicate CasterCounts(s: State) {
    var b := s.caster;
    && |s.casts| == s.run + (if PhaseOf(s).Sent? then 1 else 0)
    && |b.acquires| == s.run + (if PhaseOf(s).Before? && !b.pc.BSet? then 0 else 1)
    && |b.posts| + (if b.pc.BPost? then 1 else 0) == |b.samples|
  }

  /** In run r the broadcaster takes the lock, stamps, broadcasts, reads the clock and releases,
      in this order, as far as it has come. */
  predicate RunInOrder(b: Broadcaster, starts: seq<nat>, casts: seq<nat>, now: nat, r: nat)
    requires |b.posts| <= |b.samples| <= |casts| <= |starts| <= |b.acquires| && r < |b.acquires|
  {
    && b.acquires[r] <= now
    && (r < |starts| ==> b.acquires[r] < starts[r] <= now)
    && (r < |casts| ==> starts[r] < casts[r] <= now)
    && (r < |b.samples| ==> casts[r] < b.samples[r].end <= now)
    && (r < |b.posts| ==> b.samples[r].end < b.posts[r])
  }

  ghost predicate CasterOrder(b: Broadcaster, starts: seq<nat>, casts: seq<nat>, now: nat) {
    && |b.posts| <= |b.samples| <= |casts| <= |starts| <= |b.acquires|
    && (forall r :: 0 <= r < |b.acquires| ==> RunInOrder(b, starts, casts, now, r))
    && (b.pc.BStore? ==> |casts| > 0 && casts[|casts| - 1] < b.end <= now)
  }

  ghost predicate CasterTimes(s: State) {
    CasterCounts(s) && CasterOrder(s.caster, s.starts, s.casts, s.now)
  }

  ghost predicate Times(s: State) {
    && CasterTimes(s)
    && forall i :: 0 <= i < |s.waiters| ==> WaiterTimes(s.waiters[i], s.casts, s.run, s.now)
  }

  ghost predicate Inv(c: Config, s: State) { Core(c, s) && ResultsPair(s) && Times(s) }

  lemma InitHolds(c: Config, s: State)
    requires Init(c, s)
    ensures Inv(c, s)
  {
  }

  // ---------------------------------------------------------------------------
  // Every step keeps it
  // ---------------------------------------------------------------------------

  lemma WaiterKeepsCore(c: Config, s: State, i: nat, at: nat)
    requires Core(c, s) && s.now < at && Enabled(s, WaiterStep(i)) && !s.waiters[i].pc.Done?
    ensures Core(c, Apply(c, s, WaiterStep(i), at))
  {
    var t := Apply(c, s, WaiterStep(i), at);
    assert WaiterFits(c, s, i);
    forall j | 0 <= j < |t.waiters| ensures WaiterFits(c, t, j) {
      assert WaiterFits(c, s, j);
    }
    assert Flags(t) == Flags(s);
  }

  /** A waiter's completion: one more flag, and when all are set the next run can begin. */
  lemma WaiterCompletes(c: Config, s: State, i: nat, at: nat)
    requires Core(c, s) && s.now < at && Enabled(s, WaiterStep(i)) && s.waiters[i].pc.Done?
    ensures Core(c, Apply(c, s, WaiterStep(i), at))
  {
    var t := Apply(c, s, WaiterStep(i), at);
    var f := Flags(s)[i := 1];
    assert WaiterFits(c, s, i);
    SumUpdate(Flags(s), i, 1);
    AllFlagsSet(f);
    if s.driver.count == c.k {
      forall j | 0 <= j < c.k ensures t.waiters[j].pc.Blocked? && |t.waiters[j].samples| == t.run {
        assert f[j] == 1;
      }
    } else {
      assert Flags(t) == f;
    }
    forall j | 0 <= j < |t.waiters| ensures WaiterFits(c, t, j) {
      assert WaiterFits(c, s, j);
    }
  }

  lemma CasterCompletes(c: Config, s: State, at: nat)
    requires Core(c, s) && s.now < at && Enabled(s, CasterStep) && s.caster.pc.BDone?
    ensures Core(c, Apply(c, s, CasterStep, at))
  {
    var t := Apply(c, s, CasterStep, at);
    AllFlagsSet(Flags(s));
    if s.driver.count == c.k {
      forall j | 0 <= j < c.k ensures t.waiters[j].pc.Blocked? && |t.waiters[j].samples| == t.run {
        assert Flags(s)[j] == 1;
      }
    } else {
      assert Flags(t) == Flags(s);
    }
    forall j | 0 <= j < |t.waiters| ensures WaiterFits(c, t, j) {
      assert WaiterFits(c, s, j);
    }
  }

  lemma CasterKeepsFlags(c: Config, s: State, at: nat)
    requires Core(c, s) && Enabled(s, CasterStep) && !s.caster.pc.BDone?
    ensures Flags(Apply(c, s, CasterStep, at)) == Flags(s)
  {
    var f := Flags(Apply(c, s, CasterStep, at));
    forall j | 0 <= j < |s.waiters| ensures f[j] == Flags(s)[j] {
      assert WaiterFits(c, s, j);
    }
  }

  lemma CasterKeepsCore(c: Config, s: State, at: nat)
    requires Core(c, s) && s.now < at && Enabled(s, CasterStep) && !s.caster.pc.BDone?
    ensures Core(c, Apply(c, s, CasterStep, at))
  {
    var t := Apply(c, s, CasterStep, at);
    forall j | 0 <= j < |t.waiters| ensures WaiterFits(c, t, j) {
      assert WaiterFits(c, s, j);
    }
    CasterKeepsFlags(c, s, at);
  }

  lemma DriverKeepsCore(c: Config, s: State, at: nat)
    requires Core(c, s) && s.now < at && Enabled(s, DriverStep)
    ensures Core(c, Apply(c, s, DriverStep, at))
  {
    var t := Apply(c, s, DriverStep, at);
    forall j | 0 <= j < |t.waiters| ensures WaiterFits(c, t, j) {
      assert WaiterFits(c, s, j);
    }
    if t.driver.Collect? {
      SumConstant(Flags(t), 0);
    }
  }

  lemma StepKeepsCore(c: Config, s: State, a: Step, at: nat)
    requires Core(c, s) && s.now < at && Enabled(s, a)
    ensures Core(c, Apply(c, s, a, at))
  {
    match a
    case WaiterStep(i) =>
      if s.waiters[i].pc.Done? { WaiterCompletes(c, s, i, at); } else { WaiterKeepsCore(c, s, i, at); }
    case CasterStep =>
      if s.caster.pc.BDone? { CasterCompletes(c, s, at); } else { CasterKeepsCore(c, s, at); }
    case DriverStep => DriverKeepsCore(c, s, at);
  }

  /** A later stamp does not disturb rows that are already recorded. */
  lemma RowKept(starts: seq<nat>, at: nat, samples: seq<Sample>)
    requires RowPairs(starts, samples)
    ensures RowPairs(starts + [at], samples)
  {
  }

  lemma WaiterKeepsResults(c: Config, s: State, i: nat, at: nat)
    requires Core(c, s) && ResultsPair(s) && s.now < at && Enabled(s, WaiterStep(i))
    ensures ResultsPair(Apply(c, s, WaiterStep(i), at))
  {
    assert WaiterFits(c, s, i) && RowPairs(s.starts, s.waiters[i].samples);
  }

  lemma CasterKeepsResults(c: Config, s: State, at: nat)
    requires Core(c, s) && ResultsPair(s) && s.now < at && Enabled(s, CasterStep)
    ensures ResultsPair(Apply(c, s, CasterStep, at))
  {
    var t := Apply(c, s, CasterStep, at);
    forall j | 0 <= j < |t.waiters|
      ensures RowPairs(t.starts, t.waiters[j].samples)
      ensures t.waiters[j].pc.Store? ==> t.start < t.waiters[j].end <= t.now
    {
      assert WaiterFits(c, s, j) && RowPairs(s.starts, s.waiters[j].samples);
      RowKept(s.starts, at, s.waiters[j].samples);
    }
    RowKept(s.starts, at, s.caster.samples);
  }

  lemma DriverKeepsResults(c: Config, s: State, at: nat)
    requires Core(c, s) && ResultsPair(s) && s.now < at && Enabled(s, DriverStep)
    ensures ResultsPair(Apply(c, s, DriverStep, at))
  {
  }

  lemma StepKeepsResults(c: Config, s: State, a: Step, at: nat)
    requires Core(c, s) && ResultsPair(s) && s.now < at && Enabled(s, a)
    ensures ResultsPair(Apply(c, s, a, at))
  {
    match a
    case WaiterStep(i) => WaiterKeepsResults(c, s, i, at);
    case CasterStep => CasterKeepsResults(c, s, at);
    case DriverStep => DriverKeepsResults(c, s, at);
  }

  // ---------------------------------------------------------------------------
  // When things happen
  // ---------------------------------------------------------------------------

  lemma CasterKeepsCounts(c: Config, s: State, at: nat)
    requires Core(c, s) && CasterCounts(s) && Enabled(s, CasterStep)
    ensures CasterCounts(Apply(c, s, CasterStep, at))
  {
  }

  /** The logs of the broadcaster grow by at most one entry, the latest event. */
  lemma CasterLogsGrow(c: Config, s: State, at: nat)
    requires Core(c, s) && CasterTimes(s) && s.now < at && Enabled(s, CasterStep)
    ensures var b, t := s.caster, Apply(c, s, CasterStep, at);
      var b' := t.caster;
      && (b'.acquires == b.acquires || (b'.acquires == b.acquires + [at] && |s.starts| == |b.acquires|))
      && (t.starts == s.starts || (t.starts == s.starts + [at] && |b.acquires| == |s.starts| + 1 && |s.casts| == |s.starts|))
      && (t.casts == s.casts || (t.casts == s.casts + [at] && |s.starts| == |s.casts| + 1 && |b.samples| == |s.casts|))
      && (b'.posts == b.posts || (b'.posts == b.posts + [at] && |b.samples| == |b.posts| + 1))
      && (b'.samples == b.samples ||
           (b.pc.BStore? && |s.casts| == |b.samples| + 1 && |b.posts| == |b.samples|
            && b'.samples == b.samples + [Sample(b.end - s.start, b.end)]))
  {
  }

  lemma CastsPast(b: Broadcaster, starts: seq<nat>, casts: seq<nat>, now: nat)
    requires CasterOrder(b, starts, casts, now)
    ensures forall r :: 0 <= r < |casts| ==> casts[r] <= now
  {
    forall r | 0 <= r < |casts| ensures casts[r] <= now {
      assert RunInOrder(b, starts, casts, now, r);
    }
  }

  lemma CasterKeepsOrder(c: Config, s: State, at: nat)
    requires Core(c, s) && CasterTimes(s) && s.now < at && Enabled(s, CasterStep)
    ensures var t := Apply(c, s, CasterStep, at); CasterOrder(t.caster, t.starts, t.casts, at)
  {
    var t := Apply(c, s, CasterStep, at);
    CasterLogsGrow(c, s, at);
    CastsPast(s.caster, s.starts, s.casts, s.now);
    forall r | 0 <= r < |t.caster.acquires| ensures RunInOrder(t.caster, t.starts, t.casts, at, r) {
      if r < |s.caster.acquires| { assert RunInOrder(s.caster, s.starts, s.casts, s.now, r); }
    }
  }

  /** When the last completion is a waiter's, the broadcaster has completed before. */
  lemma LastIsWaiter(c: Config, s: State, i: nat)
    requires Core(c, s) && i < |s.waiters|
    ensures s.driver.Collect? && s.driver.count == c.k && s.waiters[i].pc.Done? ==> s.caster.pc.BBlocked?
  {
    if s.waiters[i].pc.Done? {
      SumUpdate(Flags(s), i, 1);
      AllFlagsSet(Flags(s)[i := 1]);
    }
  }

  lemma LaterOrder(b: Broadcaster, b': Broadcaster, starts: seq<nat>, casts: seq<nat>, now: nat, at: nat)
    requires CasterOrder(b, starts, casts, now) && now < at
    requires b' == b || (b' == b.(pc := b'.pc) && !b'.pc.BStore?)
    ensures CasterOrder(b', starts, casts, at)
  {
    forall r | 0 <= r < |b.acquires| ensures RunInOrder(b', starts, casts, at, r) {
      assert RunInOrder(b, starts, casts, now, r);
    }
  }

  lemma OthersKeepCasterTimes(c: Config, s: State, a: Step, at: nat)
    requires Core(c, s) && CasterTimes(s) && s.now < at && Enabled(s, a) && !a.CasterStep?
    ensures CasterTimes(Apply(c, s, a, at))
  {
    if a.WaiterStep? { LastIsWaiter(c, s, a.i); }
    LaterOrder(s.caster, Apply(c, s, a, at).caster, s.starts, s.casts, s.now, at);
  }

  /** A sample stays timed when the logs grow. */
  lemma SampleStaysTimed(w: Waiter, u: Waiter, casts: seq<nat>, casts': seq<nat>, run: nat, at: nat, r: nat, x: Sample)
    requires SampleTimed(w, casts, r, x) && x.end < at && casts <= casts'
    requires u.acquires == w.acquires || (r < run && u.acquires == w.acquires + [Acquisition(run, at)])
    requires u.posts == w.posts || u.posts == w.posts + [at]
    ensures SampleTimed(u, casts', r, x)
  {
    var k :| 0 <= k < |w.acquires| && w.acquires[k].run == r && casts[r] < w.acquires[k].at;
    assert u.acquires[k] == w.acquires[k];
  }

  /** A waiter that does not move, apart from being woken or started. */
  lemma IdleKeepsTimes(w: Waiter, u: Waiter, casts: seq<nat>, casts': seq<nat>, run: nat, run': nat, now: nat, at: nat)
    requires WaiterTimes(w, casts, run, now) && now < at && run <= run' && casts <= casts'
    requires u == w || (u == w.(pc := u.pc) && !WaiterHolds(u.pc) && !WaiterHolds(w.pc))
    requires WaiterHolds(w.pc) ==> run' == run && casts' == casts
    ensures WaiterTimes(u, casts', run', at)
  {
    forall r | 0 <= r < |u.samples| ensures SampleTimed(u, casts', r, u.samples[r]) && u.samples[r].end <= at {
      SampleStaysTimed(w, u, casts, casts', run, at, r, w.samples[r]);
    }
  }

  /** The sample a waiter stores. */
  lemma StoredSampleTimed(w: Waiter, casts: seq<nat>, run: nat, now: nat, value: int)
    requires WaiterTimes(w, casts, run, now) && w.pc.Store? && |w.samples| == run
    ensures SampleTimed(w, casts, run, Sample(value, w.end))
  {
    var k := |w.acquires| - 1;
    assert w.acquires[k].run == run && casts[run] < w.acquires[k].at;
  }

  lemma SamplesStayTimed(w: Waiter, u: Waiter, casts: seq<nat>, run: nat, now: nat, at: nat)
    requires WaiterTimes(w, casts, run, now) && now < at && |w.samples| <= run + 1
    requires u.acquires == w.acquires || (|w.samples| == run && u.acquires == w.acquires + [Acquisition(run, at)])
    requires u.posts == w.posts || u.posts == w.posts + [at]
    requires u.samples == w.samples ||
      (w.pc.Store? && |w.samples| == run && u.acquires == w.acquires && u.posts == w.posts
       && |u.samples| == run + 1 && u.samples[..run] == w.samples && u.samples[run].end == w.end)
    ensures forall r :: 0 <= r < |u.samples| ==> SampleTimed(u, casts, r, u.samples[r]) && u.samples[r].end <= at
  {
    forall r | 0 <= r < |u.samples| ensures SampleTimed(u, casts, r, u.samples[r]) && u.samples[r].end <= at {
      if r < |w.samples| {
        assert u.samples[r] == w.samples[r];
        SampleStaysTimed(w, u, casts, casts, run, at, r, w.samples[r]);
      } else {
        StoredSampleTimed(w, casts, run, now, u.samples[r].value);
      }
    }
  }

  lemma WaiterKeepsOwnTimes(c: Config, s: State, i: nat, at: nat)
    requires Core(c, s) && Times(s) && s.now < at && Enabled(s, WaiterStep(i)) && !s.waiters[i].pc.Done?
    ensures var t := Apply(c, s, WaiterStep(i), at); WaiterTimes(t.waiters[i], t.casts, t.run, at)
  {
    assert WaiterFits(c, s, i) && WaiterTimes(s.waiters[i], s.casts, s.run, s.now);
    var u := Apply(c, s, WaiterStep(i), at).waiters[i];
    CastsPast(s.caster, s.starts, s.casts, s.now);
    SamplesStayTimed(s.waiters[i], u, s.casts, s.run, s.now, at);
  }

  /** While waiter j holds the lock, no other completion is the last. */
  lemma HeldMeansMore(c: Config, s: State, a: Step, j: nat)
    requires Core(c, s) && Enabled(s, a) && j < |s.waiters| && WaiterHolds(s.waiters[j].pc)
    ensures s.driver.Collect? && a.CasterStep? ==> s.caster.pc.BDone? ==> s.driver.count < c.k
    ensures s.driver.Collect? && a.WaiterStep? && s.waiters[a.i].pc.Done? ==> s.driver.count < c.k
  {
    AllFlagsSet(Flags(s));
    assert Flags(s)[j] == 0;
    if a.WaiterStep? && s.waiters[a.i].pc.Done? {
      var f := Flags(s)[a.i := 1];
      SumUpdate(Flags(s), a.i, 1);
      AllFlagsSet(f);
      assert f[j] == 0;
    }
  }

  /** What any step leaves of a waiter that does not move itself. */
  lemma IdleFrame(c: Config, s: State, a: Step, at: nat, j: nat)
    requires Core(c, s) && Enabled(s, a) && j < |s.waiters|
    requires a == WaiterStep(j) ==> s.waiters[j].pc.Done?
    ensures var t := Apply(c, s, a, at);
      && j < |t.waiters| && s.casts <= t.casts && s.run <= t.run
      && (t.waiters[j] == s.waiters[j] ||
           (t.waiters[j] == s.waiters[j].(pc := t.waiters[j].pc)
            && !WaiterHolds(t.waiters[j].pc) && !WaiterHolds(s.waiters[j].pc)))
      && (WaiterHolds(s.waiters[j].pc) ==> t.run == s.run && t.casts == s.casts)
  {
    assert WaiterFits(c, s, j);
    if a.WaiterStep? { assert WaiterFits(c, s, a.i); }
    if WaiterHolds(s.waiters[j].pc) { HeldMeansMore(c, s, a, j); }
  }

  lemma StepKeepsWaiterTimes(c: Config, s: State, a: Step, at: nat, j: nat)
    requires Core(c, s) && Times(s) && s.now < at && Enabled(s, a) && j < |s.waiters|
    requires a == WaiterStep(j) ==> s.waiters[j].pc.Done?
    ensures var t := Apply(c, s, a, at); j < |t.waiters| && WaiterTimes(t.waiters[j], t.casts, t.run, at)
  {
    var t := Apply(c, s, a, at);
    assert WaiterFits(c, s, j) && WaiterTimes(s.waiters[j], s.casts, s.run, s.now);
    IdleFrame(c, s, a, at, j);
    IdleKeepsTimes(s.waiters[j], t.waiters[j], s.casts, t.casts, s.run, t.run, s.now, at);
  }

  lemma StepKeepsTimes(c: Config, s: State, a: Step, at: nat)
    requires Core(c, s) && Times(s) && s.now < at && Enabled(s, a)
    ensures Times(Apply(c, s, a, at))
  {
    var t := Apply(c, s, a, at);
    if a.CasterStep? { CasterKeepsCounts(c, s, at); CasterKeepsOrder(c, s, at); } else { OthersKeepCasterTimes(c, s, a, at); }
    forall j | 0 <= j < |t.waiters| ensures WaiterTimes(t.waiters[j], t.casts, t.run, t.now) {
      if a == WaiterStep(j) && !s.waiters[j].pc.Done? {
        WaiterKeepsOwnTimes(c, s, j, at);
      } else {
        StepKeepsWaiterTimes(c, s, a, at, j);
      }
    }
  }

  // ---------------------------------------------------------------------------
  // Every run ends
  // ---------------------------------------------------------------------------

  function WaiterRank(s: State, w: Waiter): nat {
    match w.pc
    case Acquire => 9
    case Check => if s.shared == 0 then 8 else 5
    case Waiting => 7
    case Reacquire => 6
    case ReadEnd => 4
    case Store => 3
    case Post => 2
    case Done => 1
    case Blocked => if Recorded(s, w) then 0 else 10
  }

  function CasterRank(s: State): nat {
    match s.caster.pc
    case BAcquire => 8
    case BSet => 7
    case BStamp => 6
    case BCast => 5
    case BReadEnd => 4
    case BStore => 3
    case BPost => 2
    case BDone => 1
    case BBlocked => if |s.caster.samples| > s.run then 0 else 9
  }

  function Ranks(s: State): (r: seq<nat>)
    ensures |r| == |s.waiters|
  {
    seq(|s.waiters|, i requires 0 <= i < |s.waiters| => WaiterRank(s, s.waiters[i]))
  }

  function RoundLength(c: Config): nat { 10 * c.k + 10 }

  /** A bound on the steps still to come. */
  function Rank(c: Config, s: State): int {
    (c.n - s.run) * RoundLength(c) + Sum(Ranks(s)) + CasterRank(s) + if s.driver.Reset? then 1 else 0
  }

  lemma RanksDrop(r: seq<nat>, q: seq<nat>, i: nat)
    requires |r| == |q| && i < |r| && q[i] < r[i]
    requires forall j :: 0 <= j < |r| && j != i ==> q[j] <= r[j]
    ensures Sum(q) < Sum(r)
  {
    SumUpdate(q, i, r[i]);
    SumMonotone(q[i := r[i]], r);
  }

  lemma NextRunRank(c: Config, s: State, t: State)
    requires Core(c, t) && t.run == s.run + 1 && |s.waiters| == c.k && (t.driver.Reset? || t.driver.Finished?)
    requires Sum(Ranks(s)) + CasterRank(s) > 0
    ensures Rank(c, t) < Rank(c, s)
  {
    forall j | 0 <= j < |Ranks(t)| ensures Ranks(t)[j] == 10 {
      assert WaiterFits(c, t, j);
    }
    SumConstant(Ranks(t), 10);
    assert (c.n - s.run) * RoundLength(c) == (c.n - t.run) * RoundLength(c) + RoundLength(c);
  }

  /** A waiter's step lowers its own rank and raises no other. */
  lemma WaiterRankDrops(c: Config, s: State, i: nat, at: nat)
    requires Core(c, s) && Enabled(s, WaiterStep(i)) && Apply(c, s, WaiterStep(i), at).run == s.run
    ensures var t := Apply(c, s, WaiterStep(i), at);
      && |t.waiters| == |s.waiters|
      && WaiterRank(t, t.waiters[i]) < WaiterRank(s, s.waiters[i])
      && forall j :: 0 <= j < |s.waiters| && j != i ==> WaiterRank(t, t.waiters[j]) <= WaiterRank(s, s.waiters[j])
  {
    assert WaiterFits(c, s, i);
  }

  lemma WaiterRanksWithinRun(c: Config, s: State, i: nat, at: nat)
    requires Core(c, s) && s.now < at && Enabled(s, WaiterStep(i))
    requires Apply(c, s, WaiterStep(i), at).run == s.run
    ensures Rank(c, Apply(c, s, WaiterStep(i), at)) < Rank(c, s)
  {
    WaiterRankDrops(c, s, i, at);
    RanksDrop(Ranks(s), Ranks(Apply(c, s, WaiterStep(i), at)), i);
  }

  lemma WaiterRanks(c: Config, s: State, i: nat, at: nat)
    requires Core(c, s) && s.now < at && Enabled(s, WaiterStep(i))
    ensures Rank(c, Apply(c, s, WaiterStep(i), at)) < Rank(c, s)
  {
    var t := Apply(c, s, WaiterStep(i), at);
    if t.run == s.run {
      WaiterRanksWithinRun(c, s, i, at);
    } else {
      StepKeepsCore(c, s, WaiterStep(i), at);
      RanksDrop(Ranks(s), Ranks(s)[i := 0], i);
      NextRunRank(c, s, t);
    }
  }

  lemma CasterRanksWithinRun(c: Config, s: State, at: nat)
    requires Core(c, s) && s.now < at && Enabled(s, CasterStep) && Apply(c, s, CasterStep, at).run == s.run
    ensures Rank(c, Apply(c, s, CasterStep, at)) < Rank(c, s)
  {
    var t := Apply(c, s, CasterStep, at);
    forall j | 0 <= j < |Ranks(s)| ensures Ranks(t)[j] <= Ranks(s)[j] {
      assert WaiterFits(c, s, j);
    }
    SumMonotone(Ranks(t), Ranks(s));
  }

  lemma CasterRanks(c: Config, s: State, at: nat)
    requires Core(c, s) && s.now < at && Enabled(s, CasterStep)
    ensures Rank(c, Apply(c, s, CasterStep, at)) < Rank(c, s)
  {
    var t := Apply(c, s, CasterStep, at);
    if t.run == s.run {
      CasterRanksWithinRun(c, s, at);
    } else {
      StepKeepsCore(c, s, CasterStep, at);
      NextRunRank(c, s, t);
    }
  }

  lemma DriverRanks(c: Config, s: State, at: nat)
    requires Core(c, s) && s.now < at && Enabled(s, DriverStep)
    ensures Rank(c, Apply(c, s, DriverStep, at)) < Rank(c, s)
  {
    var t := Apply(c, s, DriverStep, at);
    if s.driver.StartNext? && s.driver.i < c.k {
      assert WaiterFits(c, s, s.driver.i);
      RanksDrop(Ranks(s), Ranks(t), s.driver.i);
    } else {
      SumMonotone(Ranks(t), Ranks(s));
    }
  }

  lemma StepKeepsInv(c: Config, s: State, t: State)
    requires Inv(c, s) && Next(c, s, t)
    ensures Inv(c, t) && Rank(c, t) < Rank(c, s)
  {
    var a, at: nat :| s.now < at && Enabled(s, a) && t == Apply(c, s, a, at);
    StepKeepsCore(c, s, a, at);
    StepKeepsResults(c, s, a, at);
    StepKeepsTimes(c, s, a, at);
    match a
    case WaiterStep(i) => WaiterRanks(c, s, i, at);
    case CasterStep => CasterRanks(c, s, at);
    case DriverStep => DriverRanks(c, s, at);
  }

  lemma RunKeepsInv(c: Config, run: seq<State>, k: nat)
    requires IsRun(c, run) && k < |run|
    ensures Inv(c, run[k]) && Rank(c, run[k]) + k <= Rank(c, run[0])
  {
    if k == 0 {
      InitHolds(c, run[0]);
    } else {
      RunKeepsInv(c, run, k - 1);
      StepKeepsInv(c, run[k - 1], run[k]);
    }
  }

  /** No deadlock: whoever holds the lock can move; if nobody does, someone can take it,
      report completion, or the driver can go on. */
  lemma StuckMeansFinished(c: Config, s: State)
    requires Core(c, s) && (forall a :: !Enabled(s, a))
    ensures s.driver.Finished?
  {
    assert !Enabled(s, DriverStep) && !Enabled(s, CasterStep);
    if s.driver.Collect? {
      forall j | 0 <= j < |s.waiters| ensures s.lock != HeldByWaiter(j) {
        assert WaiterFits(c, s, j) && !Enabled(s, WaiterStep(j));
      }
      forall j | 0 <= j < |s.waiters| ensures Flags(s)[j] == 1 {
        assert WaiterFits(c, s, j) && !Enabled(s, WaiterStep(j));
      }
      SumConstant(Flags(s), 1);
    }
  }

  ghost predicate SamplesTimed(w: Waiter, casts: seq<nat>) {
    forall r :: 0 <= r < |w.samples| ==> SampleTimed(w, casts, r, w.samples[r])
  }

  /** Every sample of every waiter and of the broadcaster lies where it should among the events
      of its run. */
  ghost predicate ResultsTimed(s: State) {
    && CasterOrder(s.caster, s.starts, s.casts, s.now)
    && forall i :: 0 <= i < |s.waiters| ==> SamplesTimed(s.waiters[i], s.casts)
  }

  /** In every state: samples are timed, a waiter that is recording does so after this run's stamp was
      written, the driver touches the shared word only while every thread is blocked, and it
      has counted each thread that completed this run exactly once. */
  ghost predicate Safe(c: Config, s: State) {
    && ResultsPair(s) && ResultsTimed(s)
    && (forall i :: 0 <= i < |s.waiters| && (s.waiters[i].pc.ReadEnd? || s.waiters[i].pc.Store?) ==>
          |s.starts| == s.run + 1 && s.start == s.starts[s.run])
    && (s.driver.Reset? ==>
          && s.lock.Free? && s.caster.pc.BBlocked?
          && forall i :: 0 <= i < |s.waiters| ==> s.waiters[i].pc.Blocked?)
    && (s.driver.Collect? ==>
          && s.driver.count == Sum(Flags(s)) + (if s.caster.pc.BBlocked? then 1 else 0)
          && s.driver.count <= c.k)
  }

  lemma InvIsSafe(c: Config, s: State)
    requires Inv(c, s)
    ensures Safe(c, s)
  {
    forall i | 0 <= i < |s.waiters| && (s.waiters[i].pc.ReadEnd? || s.waiters[i].pc.Store?)
      ensures |s.starts| == s.run + 1 && s.start == s.starts[s.run]
    {
      assert WaiterFits(c, s, i);
    }
    if s.driver.Reset? {
      forall i | 0 <= i < |s.waiters| ensures s.lock != HeldByWaiter(i) {
        assert WaiterFits(c, s, i);
      }
    }
  }

  lemma FinishedIsComplete(c: Config, s: State)
    requires Inv(c, s) && s.driver.Finished?
    ensures |s.starts| == |s.caster.samples| == c.n
    ensures forall i :: 0 <= i < c.k ==> |s.waiters[i].samples| == c.n
  {
    forall i | 0 <= i < c.k ensures |s.waiters[i].samples| == c.n {
      assert WaiterFits(c, s, i);
    }
  }

  lemma RankBounds(c: Config, s: State, t: State)
    requires Init(c, s) && Core(c, t)
    ensures Rank(c, t) >= 0
    ensures Rank(c, s) <= (c.n + 1) * RoundLength(c)
  {
    SumConstant(Ranks(s), 10);
    assert (c.n + 1) * RoundLength(c) == c.n * RoundLength(c) + RoundLength(c);
    ProductNonNegative(c.n - t.run, RoundLength(c));
  }

  /** Total correctness for every number of waiters and runs and every interleaving: samples
      are only taken after their own run's stamp and broadcast, while holding the lock, the driver never races with a thread of
      an earlier run, the run is bounded, and it can stop only when every waiter and the
      broadcaster have recorded one sample for each run. */
  lemma EveryRun(c: Config, run: seq<State>)
    requires IsRun(c, run)
    ensures |run| <= (c.n + 1) * RoundLength(c) + 1
    ensures forall k :: 0 <= k < |run| ==> Safe(c, run[k])
    ensures var last := run[|run| - 1];
            (forall a :: !Enabled(last, a)) ==>
              && last.driver.Finished?
              && |last.waiters| == c.k && |last.starts| == |last.caster.samples| == c.n
              && forall i :: 0 <= i < c.k ==> |last.waiters[i].samples| == c.n
  {
    forall k | 0 <= k < |run| ensures Safe(c, run[k]) {
      RunKeepsInv(c, run, k);
      InvIsSafe(c, run[k]);
    }
    var last := run[|run| - 1];
    RunKeepsInv(c, run, |run| - 1);
    RankBounds(c, run[0], last);
    if forall a :: !Enabled(last, a) {
      StuckMeansFinished(c, last);
      FinishedIsComplete(c, last);
    }
  }
}
