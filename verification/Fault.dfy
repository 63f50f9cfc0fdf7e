/**
 The fault benchmarks: a faulting thread, its fault handler and the driver.

 A fault is a message from the faulting thread, carrying the address of the faulting
 instruction, after which that thread waits; the handler's reply carries the address at
 which it resumes.  The three measurements (fault to handler, handler to faulter, round
 trip), each in a late and an early processing form, differ in who stamps and who
 records and in the untimed faults before and after the loop; `Config` says which.
 */
module Fault {
  import opened Stamps

  datatype Kind = FaultPath | ReplyPath | RoundTrip

  /** `lead`, `loop` and `tail` are the addresses of the faulting instruction before,
      in and after the loop; `size` is the size of that instruction. */
  datatype Config = Config(kind: Kind, early: bool, n: nat, lead: int, loop: int, tail: int, size: int) {

    /** Faults before the faulter's loop. */
    function Leads(): nat { if kind.ReplyPath? then 1 else 0 }

    /** Iterations of the faulter's loop. */
    function Loops(): nat { if early && !kind.FaultPath? then n else n + 1 }

    /** Faults after the faulter's loop. */
    function Tails(): nat { if early && !kind.FaultPath? then 1 else 0 }

    function Total(): nat { Leads() + Loops() + Tails() }

    /** Iterations of the handler's loop. */
    function Rounds(): nat { if kind.ReplyPath? then n + 1 else n }
  }

  datatype FaulterPc =
    | FLead | FLeadAwait | FTop | FFault | FAwait | FEnd | FStore | FTail | FTailAwait | FDone | FGone
  datatype HandlerPc = HFirst | HTop | HStamp | HReply | HRecv | HEnd | HStore | HLastReply | HDone | HGone

  datatype Sample = Sample(value: int, start: nat, end: nat)

  datatype Faulter = Faulter(pc: FaulterPc, i: nat, start: nat, end: nat)

  /** `holds`: the kernel keeps the faulter's reply capability for the handler. */
  datatype Handler = Handler(pc: HandlerPc, j: nat, ip: int, end: nat, holds: bool)

  /** `cell` is the shared start stamp.  The logs record each fault's address and time and
      each reply's resume address and time; `samples` is the result array. */
  datatype State = State(
    now: nat, faulter: Faulter, handler: Handler, cell: nat, completions: nat,
    faultIp: seq<int>, faultAt: seq<nat>, resumeIp: seq<int>, replyAt: seq<nat>,
    samples: seq<Sample>)

  datatype Step = FaulterLocal | RaiseFault | FaulterDone | HandlerLocal | GiveReply | HandlerDone

  predicate Init(c: Config, s: State) {
    && s.faulter.pc == (if c.kind.ReplyPath? then FLead else FTop) && s.faulter.i == 0
    && s.handler.pc == HFirst && s.handler.j == 0 && !s.handler.holds
    && s.completions == 0
    && s.faultIp == [] && s.faultAt == [] && s.resumeIp == [] && s.replyAt == [] && s.samples == []
  }

  predicate Enabled(c: Config, s: State, a: Step) {
    match a
    case FaulterLocal => s.faulter.pc.FTop? || s.faulter.pc.FEnd? || s.faulter.pc.FStore?
    case RaiseFault =>
      && (s.faulter.pc.FLead? || s.faulter.pc.FFault? || s.faulter.pc.FTail?)
      && (s.handler.pc.HFirst? || s.handler.pc.HRecv? || s.handler.pc.HGone?)
    case FaulterDone => s.faulter.pc.FDone? && s.completions < 2
    case HandlerLocal => s.handler.pc.HTop? || s.handler.pc.HStamp? || s.handler.pc.HEnd? || s.handler.pc.HStore?
    case GiveReply => s.handler.pc.HReply? || s.handler.pc.HLastReply?
    case HandlerDone => s.handler.pc.HDone? && s.completions < 2
  }

  function FaulterStep(c: Config, s: State): State {
    var f := s.faulter;
    match f.pc
    case FTop =>
      if f.i < c.Loops() then
        match c.kind
        case FaultPath => s.(cell := s.now, faulter := f.(pc := FFault))
        case ReplyPath => s.(faulter := f.(pc := FFault))
        case RoundTrip => s.(faulter := f.(start := s.now, pc := FFault))
      else s.(faulter := f.(pc := if c.Tails() > 0 then FTail else FDone))
    case FEnd => s.(faulter := f.(end := s.now, pc := FStore))
    case _ =>
      var from := if c.kind.ReplyPath? then s.cell else f.start;
      s.(samples := s.samples + [Sample(f.end - from, from, f.end)], faulter := f.(i := f.i + 1, pc := FTop))
  }

  function FaultAddress(c: Config, f: Faulter): int {
    match f.pc case FLead => c.lead case FFault => c.loop case _ => c.tail
  }

  function Faulted(f: Faulter): Faulter {
    match f.pc
    case FLead => f.(pc := FLeadAwait)
    case FFault => f.(pc := FAwait)
    case _ => f.(pc := FTailAwait)
  }

  function HandlerGot(c: Config, h: Handler, ip: int): Handler {
    match h.pc
    case HFirst => h.(pc := HTop, ip := ip, holds := true)
    case HRecv =>
      if c.kind.FaultPath? then h.(pc := HEnd, ip := ip, holds := true)
      else h.(pc := HTop, j := h.j + 1, ip := ip, holds := true)
    case _ => h.(holds := true)
  }

  function HandlerStep(c: Config, s: State): State {
    var h := s.handler;
    match h.pc
    case HTop =>
      s.(handler := h.(
           ip := h.ip + c.size,
           pc := if h.j >= c.Rounds() then HLastReply else if c.kind.ReplyPath? then HStamp else HReply))
    case HStamp => s.(cell := s.now, handler := h.(pc := HReply))
    case HEnd => s.(handler := h.(end := s.now, pc := HStore))
    case _ =>
      s.(samples := s.samples + [Sample(h.end - s.cell, s.cell, h.end)], handler := h.(j := h.j + 1, pc := HTop))
  }

  /** Where the faulter goes on once it is resumed. */
  function Resumed(c: Config, f: Faulter): Faulter {
    match f.pc
    case FLeadAwait => f.(pc := FTop)
    case FAwait => if c.kind.FaultPath? then f.(i := f.i + 1, pc := FTop) else f.(pc := FEnd)
    case FTailAwait => f.(pc := FDone)
    case _ => f
  }

  function ReplyStep(c: Config, s: State): State {
    var h := s.handler.(pc := if s.handler.pc.HReply? then HRecv else HDone, holds := false);
    if s.handler.holds then
      s.(faulter := Resumed(c, s.faulter), handler := h,
         resumeIp := s.resumeIp + [s.handler.ip], replyAt := s.replyAt + [s.now])
    else
      s.(handler := h)
  }

  function Apply(c: Config, s0: State, a: Step, at: nat): State {
    var s := s0.(now := at);
    match a
    case FaulterLocal => FaulterStep(c, s)
    case RaiseFault =>
      var ip := FaultAddress(c, s.faulter);
      s.(faulter := Faulted(s.faulter), handler := HandlerGot(c, s.handler, ip),
         faultIp := s.faultIp + [ip], faultAt := s.faultAt + [at])
    case FaulterDone => s.(faulter := s.faulter.(pc := FGone), completions := s.completions + 1)
    case HandlerLocal => HandlerStep(c, s)
    case GiveReply => ReplyStep(c, s)
    case HandlerDone => s.(handler := s.handler.(pc := HGone), completions := s.completions + 1)
  }

  ghost predicate Next(c: Config, s: State, t: State) {
    exists a, at: nat :: s.now < at && Enabled(c, s, a) && t == Apply(c, s, a, at)
  }

  ghost predicate IsRun(c: Config, run: seq<State>) {
    && |run| > 0 && Init(c, run[0])
    && forall k :: 0 <= k < |run| - 1 ==> Next(c, run[k], run[k + 1])
  }

  // ---------------------------------------------------------------------------
  // Counting faults and replies
  // ---------------------------------------------------------------------------

  function Raised(c: Config, f: Faulter): nat {
    match f.pc
    case FLead => 0
    case FLeadAwait => 1
    case FTop | FFault => c.Leads() + f.i
    case FAwait | FEnd | FStore => c.Leads() + f.i + 1
    case FTail => c.Leads() + c.Loops()
    case _ => c.Total()
  }

  function Answered(c: Config, f: Faulter): nat {
    match f.pc
    case FLead | FLeadAwait => 0
    case FTop | FFault | FAwait => c.Leads() + f.i
    case FEnd | FStore => c.Leads() + f.i + 1
    case FTail | FTailAwait => c.Leads() + c.Loops()
    case _ => c.Total()
  }

  function Received(c: Config, h: Handler): nat {
    match h.pc
    case HFirst => 0
    case HTop | HStamp | HReply | HRecv => h.j + 1
    case HEnd | HStore => h.j + 2
    case _ => c.Rounds() + 1
  }

  function Replied(c: Config, h: Handler): nat {
    match h.pc
    case HFirst => 0
    case HTop | HStamp | HReply => h.j
    case HRecv | HEnd | HStore => h.j + 1
    case HLastReply => c.Rounds()
    case _ => c.Rounds() + 1
  }

  predicate CountersFit(c: Config, s: State) {
    var f, h := s.faulter, s.handler;
    && f.i <= c.Loops() && h.j <= c.Rounds()
    && (f.pc.FFault? || f.pc.FAwait? || f.pc.FEnd? || f.pc.FStore? ==> f.i < c.Loops())
    && (f.pc.FTail? || f.pc.FTailAwait? || f.pc.FDone? || f.pc.FGone? ==> f.i == c.Loops())
    && (f.pc.FLead? || f.pc.FLeadAwait? ==> c.kind.ReplyPath? && f.i == 0)
    && (f.pc.FTail? || f.pc.FTailAwait? ==> c.Tails() == 1)
    && (f.pc.FEnd? || f.pc.FStore? ==> !c.kind.FaultPath?)
    && (h.pc.HStamp? || h.pc.HReply? || h.pc.HRecv? || h.pc.HEnd? || h.pc.HStore? ==> h.j < c.Rounds())
    && (h.pc.HLastReply? || h.pc.HDone? || h.pc.HGone? ==> h.j == c.Rounds())
    && (h.pc.HStamp? ==> c.kind.ReplyPath?)
    && (h.pc.HEnd? || h.pc.HStore? ==> c.kind.FaultPath?)
    && (h.pc.HFirst? ==> h.j == 0)
    && s.completions == (if f.pc.FGone? then 1 else 0) + (if h.pc.HGone? then 1 else 0)
  }

  /** Every fault raised was taken, every reply given arrived, and the handler holds a
      reply capability exactly while the faulter waits. */
  predicate Matched(c: Config, s: State) {
    && |s.faultAt| == |s.faultIp| == Raised(c, s.faulter) == Received(c, s.handler)
    && |s.replyAt| == |s.resumeIp| == Answered(c, s.faulter) == Replied(c, s.handler)
    && (s.handler.holds <==> s.faulter.pc.FLeadAwait? || s.faulter.pc.FAwait? || s.faulter.pc.FTailAwait?)
  }

  /** The address of the k-th fault: before, in or after the faulter's loop. */
  function AddressOf(c: Config, k: nat): int {
    if k < c.Leads() then c.lead else if k < c.Leads() + c.Loops() then c.loop else c.tail
  }

  ghost predicate AddressesFit(c: Config, s: State) {
    forall k :: 0 <= k < |s.faultIp| ==> s.faultIp[k] == AddressOf(c, k)
  }

  /** The handler has added the instruction size and not yet replied. */
  predicate Advanced(pc: HandlerPc) { pc.HStamp? || pc.HReply? || pc.HLastReply? }

  /** Each resume address is the matching fault address plus the instruction size. */
  predicate ResumesAfter(c: Config, s: State) {
    && |s.resumeIp| <= |s.faultIp|
    && (forall k :: 0 <= k < |s.resumeIp| ==> s.resumeIp[k] == s.faultIp[k] + c.size)
    && (s.handler.holds ==>
          && |s.faultIp| > 0
          && s.handler.ip == s.faultIp[|s.faultIp| - 1] + (if Advanced(s.handler.pc) then c.size else 0))
  }

  /** The handler stands at a reply only while the faulter waits for one. */
  lemma ReplyFindsCaller(c: Config, s: State)
    requires CountersFit(c, s) && Matched(c, s)
    ensures Advanced(s.handler.pc) ==> s.handler.holds
    ensures s.handler.pc.HGone? ==> !s.faulter.pc.FLead? && !s.faulter.pc.FFault? && !s.faulter.pc.FTail?
  {
  }

  predicate ByFaulter(a: Step) { a.FaulterLocal? || a.RaiseFault? || a.FaulterDone? }

  lemma FaulterFits(c: Config, s: State, a: Step, at: nat)
    requires CountersFit(c, s) && Matched(c, s) && Enabled(c, s, a) && ByFaulter(a)
    ensures CountersFit(c, Apply(c, s, a, at))
  {
    ReplyFindsCaller(c, s);
  }

  lemma HandlerFits(c: Config, s: State, a: Step, at: nat)
    requires CountersFit(c, s) && Matched(c, s) && Enabled(c, s, a) && !ByFaulter(a)
    ensures CountersFit(c, Apply(c, s, a, at))
  {
    ReplyFindsCaller(c, s);
  }

  lemma StepFits(c: Config, s: State, a: Step, at: nat)
    requires CountersFit(c, s) && Matched(c, s) && Enabled(c, s, a)
    ensures CountersFit(c, Apply(c, s, a, at))
  {
    if ByFaulter(a) { FaulterFits(c, s, a, at); } else { HandlerFits(c, s, a, at); }
  }

  lemma FaulterMatches(c: Config, s: State, a: Step, at: nat)
    requires CountersFit(c, s) && Matched(c, s) && Enabled(c, s, a) && ByFaulter(a)
    ensures Matched(c, Apply(c, s, a, at))
  {
    ReplyFindsCaller(c, s);
  }

  lemma HandlerMatches(c: Config, s: State, a: Step, at: nat)
    requires CountersFit(c, s) && Matched(c, s) && Enabled(c, s, a) && !ByFaulter(a)
    ensures Matched(c, Apply(c, s, a, at))
  {
    ReplyFindsCaller(c, s);
  }

  lemma StepMatches(c: Config, s: State, a: Step, at: nat)
    requires CountersFit(c, s) && Matched(c, s) && Enabled(c, s, a)
    ensures Matched(c, Apply(c, s, a, at))
  {
    if ByFaulter(a) { FaulterMatches(c, s, a, at); } else { HandlerMatches(c, s, a, at); }
  }

  lemma StepAddresses(c: Config, s: State, a: Step, at: nat)
    requires CountersFit(c, s) && Matched(c, s) && AddressesFit(c, s) && Enabled(c, s, a)
    ensures AddressesFit(c, Apply(c, s, a, at))
  {
    if a.RaiseFault? { assert FaultAddress(c, s.faulter) == AddressOf(c, |s.faultIp|); }
  }

  /** A fault is logged with the address it is reported with. */
  lemma RaiseResumes(c: Config, s: State, at: nat)
    requires CountersFit(c, s) && Matched(c, s) && ResumesAfter(c, s) && Enabled(c, s, RaiseFault)
    ensures ResumesAfter(c, Apply(c, s, RaiseFault, at))
  {
    ReplyFindsCaller(c, s);
  }

  lemma StepResumes(c: Config, s: State, a: Step, at: nat)
    requires CountersFit(c, s) && Matched(c, s) && ResumesAfter(c, s) && Enabled(c, s, a)
    ensures ResumesAfter(c, Apply(c, s, a, at))
  {
    if a.RaiseFault? {
      RaiseResumes(c, s, at);
    } else {
      ReplyFindsCaller(c, s);
    }
  }

  // ---------------------------------------------------------------------------
  // Stamps
  // ---------------------------------------------------------------------------

  /** Stamp `t` was taken after exactly `f` faults and `r` replies. */
  ghost predicate AtPoint(s: State, t: nat, f: nat, r: nat) {
    t <= s.now && Splits(s.faultAt, t, f) && Splits(s.replyAt, t, r)
  }

  /** A point of the run: faults and replies so far. */
  datatype Point = Point(faults: nat, replies: nat)

  /** The points at which sample `i` should start and end. */
  function From(c: Config, i: nat): Point {
    match c.kind
    case FaultPath => Point(i + 1, i + 1)
    case ReplyPath => if i < c.n then Point(i + 2, i + 1) else Point(c.n + 1, c.n)
    case RoundTrip => Point(i, i)
  }

  function To(c: Config, i: nat): Point {
    match c.kind
    case FaultPath => Point(i + 2, i + 1)
    case ReplyPath => Point(i + 2, i + 2)
    case RoundTrip => Point(i + 1, i + 1)
  }

  ghost predicate SamplePairs(c: Config, s: State, i: nat)
    requires i < |s.samples|
  {
    var m := s.samples[i];
    && m.value == m.end - m.start
    && AtPoint(s, m.start, From(c, i).faults, From(c, i).replies)
    && AtPoint(s, m.end, To(c, i).faults, To(c, i).replies)
  }

  ghost predicate Logged(s: State) {
    && (forall x :: 0 <= x < |s.faultAt| ==> s.faultAt[x] <= s.now)
    && (forall x :: 0 <= x < |s.replyAt| ==> s.replyAt[x] <= s.now)
  }

  /** How many times the handler has written the shared cell (reply path). */
  function CellWrites(c: Config, h: Handler): nat {
    match h.pc
    case HReply | HRecv => h.j + 1
    case _ => h.j
  }

  ghost predicate FaulterStamps(c: Config, s: State) {
    var f := s.faulter;
    && (c.kind.FaultPath? && (f.pc.FFault? || f.pc.FAwait?) ==> AtPoint(s, s.cell, f.i, f.i))
    && (c.kind.RoundTrip? && (f.pc.FFault? || f.pc.FAwait? || f.pc.FEnd? || f.pc.FStore?) ==>
          AtPoint(s, f.start, f.i, f.i))
    && (f.pc.FStore? ==> AtPoint(s, f.end, c.Leads() + f.i + 1, c.Leads() + f.i + 1))
  }

  ghost predicate HandlerStamps(c: Config, s: State) {
    var h := s.handler;
    && (c.kind.ReplyPath? && CellWrites(c, h) > 0 ==> AtPoint(s, s.cell, CellWrites(c, h), CellWrites(c, h) - 1))
    && (h.pc.HStore? ==> AtPoint(s, h.end, h.j + 2, h.j + 1))
  }

  ghost predicate Recorded(c: Config, s: State) {
    && |s.samples| == (if c.kind.FaultPath? then s.handler.j else s.faulter.i)
    && forall i :: 0 <= i < |s.samples| ==> SamplePairs(c, s, i)
  }

  ghost predicate Inv(c: Config, s: State) {
    && CountersFit(c, s) && Matched(c, s) && AddressesFit(c, s) && ResumesAfter(c, s)
    && Logged(s) && FaulterStamps(c, s) && HandlerStamps(c, s) && Recorded(c, s)
  }

  /** What a step does to the two logs. */
  ghost predicate Extends(s: State, t: State, at: nat) {
    && s.now < at == t.now
    && (t.faultAt == s.faultAt || t.faultAt == s.faultAt + [at])
    && (t.replyAt == s.replyAt || t.replyAt == s.replyAt + [at])
  }

  lemma PointKept(s: State, t: State, at: nat, x: nat, f: nat, r: nat)
    requires Extends(s, t, at) && AtPoint(s, x, f, r)
    ensures AtPoint(t, x, f, r)
  {
    SplitsKept(s.faultAt, t.faultAt, x, f, at);
    SplitsKept(s.replyAt, t.replyAt, x, r, at);
  }

  lemma PointsKept(s: State, t: State, at: nat)
    requires Extends(s, t, at)
    ensures forall x: nat, f: nat, r: nat :: AtPoint(s, x, f, r) ==> AtPoint(t, x, f, r)
  {
    forall x: nat, f: nat, r: nat | AtPoint(s, x, f, r) ensures AtPoint(t, x, f, r) {
      PointKept(s, t, at, x, f, r);
    }
  }

  /** A stamp taken now comes after everything logged so far. */
  lemma PointNow(s: State, t: State, at: nat)
    requires Logged(s) && s.now < at == t.now && t.faultAt == s.faultAt && t.replyAt == s.replyAt
    ensures AtPoint(t, at, |s.faultAt|, |s.replyAt|)
  {
  }

  lemma StepExtends(c: Config, s: State, a: Step, at: nat)
    requires Logged(s) && s.now < at && Enabled(c, s, a)
    ensures Extends(s, Apply(c, s, a, at), at) && Logged(Apply(c, s, a, at))
    ensures a.FaulterLocal? || a.HandlerLocal? ==>
              Apply(c, s, a, at).faultAt == s.faultAt && Apply(c, s, a, at).replyAt == s.replyAt
  {
  }

  lemma FaulterLocalStamps(c: Config, s: State, at: nat)
    requires CountersFit(c, s) && Matched(c, s) && Logged(s) && FaulterStamps(c, s)
    requires s.now < at && Enabled(c, s, FaulterLocal)
    ensures FaulterStamps(c, Apply(c, s, FaulterLocal, at))
  {
    var t := Apply(c, s, FaulterLocal, at);
    StepExtends(c, s, FaulterLocal, at);
    ReplyFindsCaller(c, s);
    PointsKept(s, t, at);
    PointNow(s, t, at);
  }

  lemma StepFaulterStamps(c: Config, s: State, a: Step, at: nat)
    requires CountersFit(c, s) && Matched(c, s) && Logged(s) && FaulterStamps(c, s)
    requires s.now < at && Enabled(c, s, a)
    ensures FaulterStamps(c, Apply(c, s, a, at))
  {
    if a.FaulterLocal? {
      FaulterLocalStamps(c, s, at);
    } else {
      StepExtends(c, s, a, at);
      ReplyFindsCaller(c, s);
      PointsKept(s, Apply(c, s, a, at), at);
    }
  }

  /** Steps of the handler on its own read the clock. */
  lemma HandlerLocalStamps(c: Config, s: State, at: nat)
    requires CountersFit(c, s) && Matched(c, s) && Logged(s) && HandlerStamps(c, s)
    requires s.now < at && Enabled(c, s, HandlerLocal)
    ensures HandlerStamps(c, Apply(c, s, HandlerLocal, at))
  {
    var t := Apply(c, s, HandlerLocal, at);
    StepExtends(c, s, HandlerLocal, at);
    ReplyFindsCaller(c, s);
    PointsKept(s, t, at);
    PointNow(s, t, at);
  }

  /** Other steps leave the handler's stamps alone, and happen while none waits to be stored. */
  lemma HandlerFrame(c: Config, s: State, a: Step, at: nat)
    requires CountersFit(c, s) && Matched(c, s) && Enabled(c, s, a) && !a.HandlerLocal?
    ensures var t := Apply(c, s, a, at);
      && (c.kind.ReplyPath? ==> t.cell == s.cell && CellWrites(c, t.handler) == CellWrites(c, s.handler))
      && !t.handler.pc.HStore?
  {
    ReplyFindsCaller(c, s);
  }

  lemma StepHandlerStamps(c: Config, s: State, a: Step, at: nat)
    requires CountersFit(c, s) && Matched(c, s) && Logged(s) && HandlerStamps(c, s)
    requires s.now < at && Enabled(c, s, a)
    ensures HandlerStamps(c, Apply(c, s, a, at))
  {
    var t, h := Apply(c, s, a, at), s.handler;
    if a.HandlerLocal? {
      HandlerLocalStamps(c, s, at);
    } else {
      StepExtends(c, s, a, at);
      HandlerFrame(c, s, a, at);
      if c.kind.ReplyPath? && CellWrites(c, h) > 0 {
        PointKept(s, t, at, s.cell, CellWrites(c, h), CellWrites(c, h) - 1);
      }
    }
  }

  lemma OldSampleKept(c: Config, s: State, t: State, at: nat, i: nat)
    requires Extends(s, t, at) && s.samples <= t.samples && i < |s.samples| && SamplePairs(c, s, i)
    ensures SamplePairs(c, t, i)
  {
    var m := s.samples[i];
    PointKept(s, t, at, m.start, From(c, i).faults, From(c, i).replies);
    PointKept(s, t, at, m.end, To(c, i).faults, To(c, i).replies);
  }

  lemma OldSamplesKept(c: Config, s: State, t: State, at: nat)
    requires Extends(s, t, at) && s.samples <= t.samples
    requires forall i :: 0 <= i < |s.samples| ==> SamplePairs(c, s, i)
    ensures forall i :: 0 <= i < |s.samples| ==> SamplePairs(c, t, i)
  {
    forall i | 0 <= i < |s.samples| ensures SamplePairs(c, t, i) {
      OldSampleKept(c, s, t, at, i);
    }
  }

  /** The sample the faulter stores has the stamps it should have. */
  lemma FaulterStores(c: Config, s: State)
    requires CountersFit(c, s) && Matched(c, s) && FaulterStamps(c, s) && HandlerStamps(c, s)
    requires s.faulter.pc.FStore?
    ensures var i, from := s.faulter.i, (if c.kind.ReplyPath? then s.cell else s.faulter.start);
            && AtPoint(s, from, From(c, i).faults, From(c, i).replies)
            && AtPoint(s, s.faulter.end, To(c, i).faults, To(c, i).replies)
  {
  }

  lemma HandlerStores(c: Config, s: State)
    requires CountersFit(c, s) && Matched(c, s) && FaulterStamps(c, s) && HandlerStamps(c, s)
    requires s.handler.pc.HStore?
    ensures var j := s.handler.j;
            && AtPoint(s, s.cell, From(c, j).faults, From(c, j).replies)
            && AtPoint(s, s.handler.end, To(c, j).faults, To(c, j).replies)
  {
  }

  /** Only the two store steps touch the result array or the counter it follows. */
  lemma RecordingFrame(c: Config, s: State, a: Step, at: nat)
    requires CountersFit(c, s) && Matched(c, s) && Enabled(c, s, a)
    requires !(a.FaulterLocal? && s.faulter.pc.FStore?) && !(a.HandlerLocal? && s.handler.pc.HStore?)
    ensures var t := Apply(c, s, a, at);
            && t.samples == s.samples
            && (c.kind.FaultPath? ==> t.handler.j == s.handler.j)
            && (!c.kind.FaultPath? ==> t.faulter.i == s.faulter.i)
  {
    ReplyFindsCaller(c, s);
  }

  /** Appending a sample whose stamps are where they should be. */
  lemma LastSamplePairs(c: Config, s: State, t: State, at: nat, m: Sample)
    requires Extends(s, t, at) && t.samples == s.samples + [m] && m.value == m.end - m.start
    requires AtPoint(s, m.start, From(c, |s.samples|).faults, From(c, |s.samples|).replies)
    requires AtPoint(s, m.end, To(c, |s.samples|).faults, To(c, |s.samples|).replies)
    ensures SamplePairs(c, t, |s.samples|)
  {
    PointKept(s, t, at, m.start, From(c, |s.samples|).faults, From(c, |s.samples|).replies);
    PointKept(s, t, at, m.end, To(c, |s.samples|).faults, To(c, |s.samples|).replies);
  }

  lemma NewSample(c: Config, s: State, t: State, at: nat, m: Sample)
    requires Extends(s, t, at) && t.samples == s.samples + [m] && m.value == m.end - m.start
    requires forall i :: 0 <= i < |s.samples| ==> SamplePairs(c, s, i)
    requires AtPoint(s, m.start, From(c, |s.samples|).faults, From(c, |s.samples|).replies)
    requires AtPoint(s, m.end, To(c, |s.samples|).faults, To(c, |s.samples|).replies)
    ensures forall i :: 0 <= i < |t.samples| ==> SamplePairs(c, t, i)
  {
    forall i | 0 <= i < |t.samples| ensures SamplePairs(c, t, i) {
      if i < |s.samples| { OldSampleKept(c, s, t, at, i); } else { LastSamplePairs(c, s, t, at, m); }
    }
  }

  lemma FaulterRecords(c: Config, s: State, at: nat)
    requires Inv(c, s) && s.now < at && s.faulter.pc.FStore?
    ensures Recorded(c, Apply(c, s, FaulterLocal, at))
  {
    StepExtends(c, s, FaulterLocal, at);
    FaulterStores(c, s);
    var from := if c.kind.ReplyPath? then s.cell else s.faulter.start;
    NewSample(c, s, Apply(c, s, FaulterLocal, at), at, Sample(s.faulter.end - from, from, s.faulter.end));
  }

  lemma HandlerRecords(c: Config, s: State, at: nat)
    requires Inv(c, s) && s.now < at && s.handler.pc.HStore?
    ensures Recorded(c, Apply(c, s, HandlerLocal, at))
  {
    StepExtends(c, s, HandlerLocal, at);
    HandlerStores(c, s);
    NewSample(c, s, Apply(c, s, HandlerLocal, at), at, Sample(s.handler.end - s.cell, s.cell, s.handler.end));
  }

  lemma StepRecords(c: Config, s: State, a: Step, at: nat)
    requires Inv(c, s) && s.now < at && Enabled(c, s, a)
    ensures Recorded(c, Apply(c, s, a, at))
  {
    if a.FaulterLocal? && s.faulter.pc.FStore? {
      FaulterRecords(c, s, at);
    } else if a.HandlerLocal? && s.handler.pc.HStore? {
      HandlerRecords(c, s, at);
    } else {
      StepExtends(c, s, a, at);
      RecordingFrame(c, s, a, at);
      OldSamplesKept(c, s, Apply(c, s, a, at), at);
    }
  }

  // ---------------------------------------------------------------------------
  // Every run ends
  // ---------------------------------------------------------------------------

  function FaulterRank(c: Config, f: Faulter): int {
    6 * (c.Loops() - f.i) +
    match f.pc
    case FLead => 12
    case FLeadAwait => 11
    case FTop => 10
    case FFault => 9
    case FAwait => 8
    case FEnd => 7
    case FStore => 6
    case FTail => 4
    case FTailAwait => 3
    case FDone => 2
    case FGone => 0
  }

  function HandlerRank(c: Config, h: Handler): int {
    6 * (c.Rounds() - h.j) +
    match h.pc
    case HFirst => 11
    case HTop => 10
    case HStamp => 9
    case HReply => 8
    case HRecv => 7
    case HEnd => 6
    case HStore => 5
    case HLastReply => 4
    case HDone => 2
    case HGone => 0
  }

  function Rank(c: Config, s: State): int { FaulterRank(c, s.faulter) + HandlerRank(c, s.handler) }

  lemma StepRanks(c: Config, s: State, a: Step, at: nat)
    requires CountersFit(c, s) && Matched(c, s) && Enabled(c, s, a)
    ensures Rank(c, Apply(c, s, a, at)) < Rank(c, s)
  {
    ReplyFindsCaller(c, s);
  }

  lemma InitHolds(c: Config, s: State)
    requires Init(c, s)
    ensures Inv(c, s)
  {
  }

  lemma StepKeepsInv(c: Config, s: State, t: State)
    requires Inv(c, s) && Next(c, s, t)
    ensures Inv(c, t) && Rank(c, t) < Rank(c, s)
  {
    var a, at: nat :| s.now < at && Enabled(c, s, a) && t == Apply(c, s, a, at);
    StepFits(c, s, a, at);
    StepMatches(c, s, a, at);
    StepAddresses(c, s, a, at);
    StepResumes(c, s, a, at);
    StepExtends(c, s, a, at);
    StepFaulterStamps(c, s, a, at);
    StepHandlerStamps(c, s, a, at);
    StepRecords(c, s, a, at);
    StepRanks(c, s, a, at);
  }

  lemma RunKeepsInv(c: Config, run: seq<State>, k: nat)
    requires IsRun(c, run) && k < |run|
    ensures Inv(c, run[k]) && Rank(c, run[k]) + k <= Rank(c, run[0])
  {
    if k == 0 {
      InitHolds(c, run[0]);
    } else {
      RunKeepsInv(c, run, k - 1);
      StepKeepsInv(c, run[k - 1], run[k]);
    }
  }

  ghost predicate Stuck(c: Config, s: State) { forall a :: !Enabled(c, s, a) }

  /** No deadlock: a state without a next step has both threads finished, every fault
      answered and every sample recorded. */
  lemma StuckMeansDone(c: Config, s: State)
    requires CountersFit(c, s) && Matched(c, s) && Stuck(c, s)
    ensures s.completions == 2
    ensures |s.faultAt| == |s.replyAt| == c.Total()
    ensures s.faulter.i == c.Loops() && s.handler.j == c.Rounds()
  {
    assert !Enabled(c, s, FaulterLocal) && !Enabled(c, s, RaiseFault) && !Enabled(c, s, FaulterDone);
    assert !Enabled(c, s, HandlerLocal) && !Enabled(c, s, GiveReply) && !Enabled(c, s, HandlerDone);
  }

  // ---------------------------------------------------------------------------
  // What the samples mean
  // ---------------------------------------------------------------------------

  /** The stamps of sample `i` enclose fault `x` and nothing else. */
  ghost predicate BracketsFault(s: State, i: nat, x: nat) {
    && i < |s.samples| && x < |s.faultAt|
    && s.samples[i].start < s.faultAt[x] < s.samples[i].end
    && (forall y :: 0 <= y < |s.faultAt| && s.samples[i].start < s.faultAt[y] < s.samples[i].end ==> y == x)
  }

  ghost predicate BracketsReply(s: State, i: nat, x: nat) {
    && i < |s.samples| && x < |s.replyAt|
    && s.samples[i].start < s.replyAt[x] < s.samples[i].end
    && (forall y :: 0 <= y < |s.replyAt| && s.samples[i].start < s.replyAt[y] < s.samples[i].end ==> y == x)
  }

  ghost predicate NoFaultIn(s: State, i: nat) {
    i < |s.samples| && forall y :: 0 <= y < |s.faultAt| ==> !(s.samples[i].start <= s.faultAt[y] <= s.samples[i].end)
  }

  ghost predicate NoReplyIn(s: State, i: nat) {
    i < |s.samples| && forall y :: 0 <= y < |s.replyAt| ==> !(s.samples[i].start <= s.replyAt[y] <= s.samples[i].end)
  }

  /** The measurement each kind is for: fault i+1 and no reply, the reply to fault i+1 and no
      fault, or fault i with its reply. */
  ghost predicate Measures(c: Config, s: State, i: nat) {
    && i < |s.samples| && s.samples[i].value == s.samples[i].end - s.samples[i].start
    && match c.kind
       case FaultPath => BracketsFault(s, i, i + 1) && NoReplyIn(s, i)
       case ReplyPath => BracketsReply(s, i, i + 1) && NoFaultIn(s, i)
       case RoundTrip => BracketsFault(s, i, i) && BracketsReply(s, i, i)
  }

  lemma OneEventBetween(ts: seq<nat>, from: nat, to: nat, m: nat)
    requires Splits(ts, from, m) && Splits(ts, to, m + 1)
    ensures from < ts[m] < to
    ensures forall y :: 0 <= y < |ts| && from < ts[y] < to ==> y == m
  {
  }

  lemma FreshSampleMeasures(c: Config, s: State, i: nat)
    requires i < |s.samples| && SamplePairs(c, s, i)
    requires c.kind.ReplyPath? ==> i < c.n
    ensures Measures(c, s, i)
  {
    var m := s.samples[i];
    match c.kind
    case FaultPath => OneEventBetween(s.faultAt, m.start, m.end, i + 1);
    case ReplyPath => OneEventBetween(s.replyAt, m.start, m.end, i + 1);
    case RoundTrip =>
      OneEventBetween(s.faultAt, m.start, m.end, i);
      OneEventBetween(s.replyAt, m.start, m.end, i);
  }

  /** The extra last slot of the late reply path starts at the stamp of the reply before
      the one it ends with: two replies lie inside it. */
  lemma LastReplySlotIsStale(c: Config, s: State)
    requires c.kind.ReplyPath? && |s.samples| == c.n + 1 && SamplePairs(c, s, c.n)
    ensures c.n + 1 < |s.replyAt|
    ensures s.samples[c.n].start < s.replyAt[c.n] && s.replyAt[c.n + 1] < s.samples[c.n].end
    ensures !Measures(c, s, c.n)
  {
  }

  lemma SamplesMeasure(c: Config, s: State)
    requires Recorded(c, s)
    ensures forall i: nat :: i < |s.samples| && i < c.n ==> Measures(c, s, i)
  {
    forall i: nat | i < |s.samples| && i < c.n ensures Measures(c, s, i) {
      FreshSampleMeasures(c, s, i);
    }
  }

  lemma EveryStateOfARun(c: Config, run: seq<State>, k: nat)
    requires IsRun(c, run) && k < |run|
    ensures k < 12 * c.n + 36 && Matched(c, run[k]) && AddressesFit(c, run[k]) && ResumesAfter(c, run[k])
    ensures forall i: nat :: i < |run[k].samples| && i < c.n ==> Measures(c, run[k], i)
  {
    RunKeepsInv(c, run, k);
    SamplesMeasure(c, run[k]);
  }

  /** Total correctness for every kind, form, number of runs and interleaving: faults and
      replies stay matched, each resume address follows its fault, every recorded sample
      among the n that are read measures its own fault or reply, and the run is bounded and
      can stop only with all faults answered and both threads done. */
  lemma EveryRun(c: Config, run: seq<State>)
    requires IsRun(c, run)
    ensures |run| <= 12 * c.n + 36
    ensures forall k :: 0 <= k < |run| ==> Matched(c, run[k]) && AddressesFit(c, run[k]) && ResumesAfter(c, run[k])
    ensures forall k, i: nat :: 0 <= k < |run| && i < |run[k].samples| && i < c.n ==> Measures(c, run[k], i)
    ensures var last := run[|run| - 1];
            Stuck(c, last) ==>
              && last.completions == 2
              && |last.faultAt| == |last.replyAt| == |last.resumeIp| == c.Total()
              && |last.samples| == (if c.kind.FaultPath? then c.n else c.Loops())
  {
    forall k | 0 <= k < |run|
      ensures Matched(c, run[k]) && AddressesFit(c, run[k]) && ResumesAfter(c, run[k])
      ensures forall i: nat :: i < |run[k].samples| && i < c.n ==> Measures(c, run[k], i)
    {
      EveryStateOfARun(c, run, k);
    }
    var last := run[|run| - 1];
    EveryStateOfARun(c, run, |run| - 1);
    RunKeepsInv(c, run, |run| - 1);
    if Stuck(c, last) {
      StuckMeansDone(c, last);
    }
  }
}
