/**
 The VCPU benchmark's message loop: guests report what they measured by calling the virtual
 machine monitor, which stores it, replies, and stops once every guest has exited.

 Guests are numbered from 1, and entry 0 of the guest table is a null guest. A guest may fault
 at any time; the monitor's answer to a fault does not restart it.
 */
module Vcpu {
  import opened Options
  import opened Sums
  import opened VcpuGuest

  // ---------------------------------------------------------------------------
  // Badges
  // ---------------------------------------------------------------------------

  const FAULT_BIT: nat := 32

  predicate IsFault(badge: nat) { badge / FAULT_BIT % 2 == 1 }

  /** Setting and clearing the fault bit. */
  function WithFaultBit(id: nat): nat { if IsFault(id) then id else id + FAULT_BIT }

  function WithoutFaultBit(badge: nat): nat
  {
    assert IsFault(badge) ==> badge >= FAULT_BIT;
    if IsFault(badge) then badge - FAULT_BIT else badge
  }

  /** The badge minted for a guest's fault messages and for its calls. */
  function Badge(id: nat, fault: bool): nat { if fault then WithFaultBit(id) else id }

  /** A badge tells guest and kind of message exactly if the fault bit is not part of the
      guest number, which the limit on the number of guests ensures. */
  lemma BadgesDecode(id: nat)
    ensures (forall fault :: IsFault(Badge(id, fault)) == fault && WithoutFaultBit(Badge(id, fault)) == id)
      <==> !IsFault(id)
    ensures id < FAULT_BIT ==> !IsFault(id)
  {
    if forall fault :: IsFault(Badge(id, fault)) == fault && WithoutFaultBit(Badge(id, fault)) == id {
      assert IsFault(Badge(id, false)) == false;
    }
  }

  // ---------------------------------------------------------------------------
  // The machine
  // ---------------------------------------------------------------------------

  const NUM_BENCHMARKS: nat := 5

  datatype Msg =
    | Puts
    | GetStamp
    | EndResults(bm: nat)
    | DeepResults(bm: nat, idx: nat, stamp: Stamp)
    | Exit(code: int)
    | SeL4Fault

  datatype Status = NoGuest | Running | Sending(fault: bool) | Waiting(fault: bool) | Halted | Dead
  /** `exit` is the exit status kept in the guest table. */
  datatype Guest = Guest(pc: nat, status: Status, exit: int)

  datatype Monitor = Receiving | Received(badge: nat, msg: Msg) | Saved(badge: nat, msg: Msg) | Replying | Finished | Failed

  datatype Key = Key(bm: nat, idx: nat)
  datatype Entry = Entry(start: nat, end: nat, elapsed: nat)

  /** `caller` is the reply capability the kernel keeps for the monitor's last receive, `slot`
      the one the monitor has saved; both name the guest they reply to. */
  datatype State = State(
    guests: seq<Guest>, monitor: Monitor, caller: Option<nat>, slot: Option<nat>, exited: nat, store: map<Key, Entry>)

  /** The calls each guest makes, in order; entry 0 belongs to the null guest. */
  datatype Plan = Plan(scripts: seq<seq<Msg>>, range: nat)

  predicate Sensible(m: Msg) {
    && !m.SeL4Fault?
    && (m.EndResults? ==> m.bm < NUM_BENCHMARKS)
    && (m.DeepResults? ==> m.bm < NUM_BENCHMARKS)
  }

  /** A script ends with the exit call and has no other; benchmark numbers are in range. */
  ghost predicate Proper(script: seq<Msg>) {
    && script != [] && script[|script| - 1].Exit?
    && (forall k :: 0 <= k < |script| && script[k].Exit? ==> k == |script| - 1)
    && (forall k :: 0 <= k < |script| ==> Sensible(script[k]))
  }

  ghost predicate ValidPlan(p: Plan) {
    && 2 <= |p.scripts| <= FAULT_BIT && p.range > 0
    && forall g :: 1 <= g < |p.scripts| ==> Proper(p.scripts[g])
  }

  function NumGuests(p: Plan): int { |p.scripts| - 1 }

  predicate Init(p: Plan, s: State) {
    && |s.guests| == |p.scripts| && |s.guests| > 0 && s.guests[0].status == NoGuest
    && (forall g :: 1 <= g < |s.guests| ==> s.guests[g] == Guest(0, Running, 0))
    && s.monitor == Receiving && s.caller == None && s.slot == None && s.exited == 0 && s.store == map[]
  }

  datatype Step = Send(g: nat) | Fault(g: nat) | Receive(g: nat) | MonitorStep

  predicate Enabled(p: Plan, s: State, a: Step) {
    match a
    case Send(g) =>
      && g < |s.guests| && g < |p.scripts| && s.guests[g].status.Running? && s.guests[g].pc < |p.scripts[g]|
    case Fault(g) => g < |s.guests| && s.guests[g].status.Running?
    case Receive(g) =>
      && s.monitor.Receiving? && g < |s.guests| && g < |p.scripts| && s.guests[g].status.Sending?
      && s.guests[g].pc < |p.scripts[g]|
    case MonitorStep => s.monitor.Received? || s.monitor.Saved? || s.monitor.Replying?
  }

  function SetStatus(s: State, g: nat, status: Status): State
    requires g < |s.guests|
  {
    s.(guests := s.guests[g := s.guests[g].(status := status)])
  }

  function Stored(p: Plan, m: Msg): Entry
    requires m.DeepResults? && p.range > 0
  {
    Entry(m.stamp.start, m.stamp.end, Elapsed(m.stamp, p.range))
  }

  /** Handling a saved message: a fault is answered; a call is carried out, and answered
      unless it is the exit of a guest. */
  function Handle(p: Plan, s: State, badge: nat, m: Msg): State
    requires p.range > 0
  {
    if IsFault(badge) then s.(monitor := Replying)
    else if badge == 0 || badge >= |s.guests| then s.(monitor := Failed)
    else
      match m
      case Exit(code) =>
        var t := s.(guests := s.guests[badge := s.guests[badge].(status := Dead, exit := code)],
                    slot := None, exited := s.exited + 1);
        t.(monitor := if t.exited == NumGuests(p) then Finished else Receiving)
      case DeepResults(bm, idx, _) =>
        if bm >= NUM_BENCHMARKS then s.(monitor := Failed)
        else s.(store := s.store[Key(bm, idx) := Stored(p, m)], monitor := Replying)
      case EndResults(bm) => s.(monitor := if bm >= NUM_BENCHMARKS then Failed else Replying)
      case _ => s.(monitor := Replying)
  }

  /** A reply lets the caller go on, except after a fault. */
  function Reply(s: State): State {
    var t := s.(slot := None, monitor := Receiving);
    if s.slot.None? || s.slot.value >= |s.guests| then t
    else
      var g := s.slot.value;
      match s.guests[g].status
      case Waiting(fault) =>
        t.(guests := s.guests[g := if fault then s.guests[g].(status := Halted) else s.guests[g].(pc := s.guests[g].pc + 1, status := Running)])
      case _ => t
  }

  function Apply(p: Plan, s: State, a: Step): State
    requires Enabled(p, s, a) && p.range > 0
  {
    match a
    case Send(g) => SetStatus(s, g, Sending(false))
    case Fault(g) => SetStatus(s, g, Sending(true))
    case Receive(g) =>
      var fault := s.guests[g].status.fault;
      SetStatus(s, g, Waiting(fault)).(
        monitor := Received(Badge(g, fault), if fault then SeL4Fault else p.scripts[g][s.guests[g].pc]),
        caller := Some(g))
    case MonitorStep =>
      match s.monitor
      case Received(badge, m) =>
        if s.slot.Some? then s.(monitor := Failed)
        else s.(slot := s.caller, caller := None, monitor := Saved(badge, m))
      case Saved(badge, m) => Handle(p, s, badge, m)
      case Replying => Reply(s)
  }

  ghost predicate Next(p: Plan, s: State, t: State)
    requires p.range > 0
  {
    exists a :: Enabled(p, s, a) && t == Apply(p, s, a)
  }

  ghost predicate IsRun(p: Plan, run: seq<State>)
    requires p.range > 0
  {
    && |run| > 0 && Init(p, run[0])
    && forall k :: 0 <= k < |run| - 1 ==> Next(p, run[k], run[k + 1])
  }

  // ---------------------------------------------------------------------------
  // The invariant
  // ---------------------------------------------------------------------------

  /** The guest the monitor is dealing with, if any. */
  function Served(s: State): Option<nat> {
    match s.monitor
    case Received(_, _) => s.caller
    case Saved(_, _) => s.slot
    case Replying => s.slot
    case _ => None
  }

  predicate GuestFits(p: Plan, s: State, g: nat)
    requires g < |s.guests| && g < |p.scripts|
  {
    var x := s.guests[g];
    && (x.status.NoGuest? <==> g == 0)
    && (g > 0 ==> x.pc < |p.scripts[g]|)
    && (x.status.Waiting? <==> Served(s) == Some(g))
    && (x.status.Dead? ==> x.pc == |p.scripts[g]| - 1 && p.scripts[g][x.pc] == Exit(x.exit))
  }

  /** The message in the monitor's hands is the served guest's current one. */
  predicate MessageFits(p: Plan, s: State, g: nat, badge: nat, m: Msg) {
    && 1 <= g < |s.guests| && g < |p.scripts| && s.guests[g].status.Waiting? && s.guests[g].pc < |p.scripts[g]|
    && badge == Badge(g, s.guests[g].status.fault)
    && m == if s.guests[g].status.fault then SeL4Fault else p.scripts[g][s.guests[g].pc]
  }

  /** Where reply capabilities are, state by state. */
  predicate MonitorFits(p: Plan, s: State) {
    match s.monitor
    case Receiving => s.caller == None && s.slot == None && s.exited < NumGuests(p)
    case Received(badge, m) =>
      s.slot == None && s.caller.Some? && MessageFits(p, s, s.caller.value, badge, m) && s.exited < NumGuests(p)
    case Saved(badge, m) =>
      s.caller == None && s.slot.Some? && MessageFits(p, s, s.slot.value, badge, m) && s.exited < NumGuests(p)
    case Replying =>
      && s.caller == None && s.slot.Some? && 1 <= s.slot.value < |s.guests| && s.slot.value < |p.scripts|
      && s.guests[s.slot.value].status.Waiting? && s.exited < NumGuests(p)
      && (!s.guests[s.slot.value].status.fault ==> s.guests[s.slot.value].pc + 1 < |p.scripts[s.slot.value]|)
    case Finished => s.caller == None && s.slot == None && s.exited == NumGuests(p)
    case Failed => false
  }

  /** Entries of the guest table that no longer take part. */
  function Gone(x: Guest): nat { if x.status.Dead? || x.status.NoGuest? then 1 else 0 }

  function Flags(guests: seq<Guest>): (f: seq<nat>)
    ensures |f| == |guests|
    ensures forall g :: 0 <= g < |f| ==> f[g] == Gone(guests[g])
  {
    seq(|guests|, g requires 0 <= g < |guests| => Gone(guests[g]))
  }

  /** How many of its calls a guest has had carried out. */
  function Handled(s: State, g: nat): nat
    requires g < |s.guests|
  {
    var x := s.guests[g];
    x.pc + if x.status.Dead? || (s.monitor.Replying? && x.status == Waiting(false)) then 1 else 0
  }

  predicate HasEntry(s: State, m: Msg) { m.DeepResults? ==> Key(m.bm, m.idx) in s.store }

  /** Everything reported so far has an entry. */
  ghost predicate Complete(p: Plan, s: State)
    requires |s.guests| == |p.scripts|
  {
    forall g, k :: 1 <= g < |s.guests| && 0 <= k < Handled(s, g) && k < |p.scripts[g]| ==> HasEntry(s, p.scripts[g][k])
  }

  predicate Reports(p: Plan, m: Msg, key: Key, e: Entry)
    requires p.range > 0
  {
    m.DeepResults? && Key(m.bm, m.idx) == key && Stored(p, m) == e
  }

  /** The entry at a key is what some guest reports for that key. */
  ghost predicate Reported(p: Plan, key: Key, e: Entry)
    requires p.range > 0
  {
    exists g, k :: 1 <= g < |p.scripts| && 0 <= k < |p.scripts[g]| && Reports(p, p.scripts[g][k], key, e)
  }

  ghost predicate Faithful(p: Plan, s: State)
    requires p.range > 0
  {
    forall key :: key in s.store ==> Reported(p, key, s.store[key])
  }

  ghost predicate Core(p: Plan, s: State) {
    && ValidPlan(p) && |s.guests| == |p.scripts| && MonitorFits(p, s)
    && (forall g :: 0 <= g < |s.guests| ==> GuestFits(p, s, g))
    && s.exited + 1 == Sum(Flags(s.guests))
  }

  ghost predicate Inv(p: Plan, s: State) { Core(p, s) && Complete(p, s) && Faithful(p, s) }

  // ---------------------------------------------------------------------------
  // Every step keeps it
  // ---------------------------------------------------------------------------

  lemma FlagsUpdate(guests: seq<Guest>, g: nat, x: Guest)
    requires g < |guests|
    ensures Sum(Flags(guests[g := x])) == Sum(Flags(guests)) - Gone(guests[g]) + Gone(x)
  {
    assert Flags(guests[g := x]) == Flags(guests)[g := Gone(x)];
    SumUpdate(Flags(guests), g, Gone(x));
  }

  lemma InitHolds(p: Plan, s: State)
    requires ValidPlan(p) && Init(p, s)
    ensures Inv(p, s)
  {
    var f := Flags(s.guests);
    assert f == seq(|f|, i => 0)[0 := 1];
    SumConstant(seq(|f|, i => 0), 0);
    SumUpdate(seq(|f|, i => 0), 0, 1);
  }

  lemma GuestKeepsCore(p: Plan, s: State, g: nat, fault: bool)
    requires Core(p, s) && g < |s.guests| && s.guests[g].status.Running?
    ensures Core(p, SetStatus(s, g, Sending(fault)))
  {
    var t := SetStatus(s, g, Sending(fault));
    FlagsUpdate(s.guests, g, t.guests[g]);
    assert GuestFits(p, s, g);
    forall h | 0 <= h < |t.guests| ensures GuestFits(p, t, h) {
      assert GuestFits(p, s, h);
    }
  }

  lemma ReceiveKeepsCore(p: Plan, s: State, g: nat)
    requires Core(p, s) && Enabled(p, s, Receive(g))
    ensures Core(p, Apply(p, s, Receive(g)))
  {
    var t := Apply(p, s, Receive(g));
    FlagsUpdate(s.guests, g, t.guests[g]);
    assert GuestFits(p, s, g);
    forall h | 0 <= h < |t.guests| ensures GuestFits(p, t, h) {
      assert GuestFits(p, s, h);
    }
  }

  /** The saved reply capability always finds the slot empty. */
  lemma SaveKeepsCore(p: Plan, s: State)
    requires Core(p, s) && s.monitor.Received?
    ensures Core(p, Apply(p, s, MonitorStep)) && Apply(p, s, MonitorStep).monitor.Saved?
  {
    var t := Apply(p, s, MonitorStep);
    forall h | 0 <= h < |t.guests| ensures GuestFits(p, t, h) {
      assert GuestFits(p, s, h);
    }
  }

  /** What handling the served guest's message amounts to. */
  lemma HandleCases(p: Plan, s: State)
    requires Core(p, s) && s.monitor.Saved?
    ensures var g := s.slot.value;
      var fault := s.guests[g].status.fault;
      && s.monitor.badge == Badge(g, fault) && IsFault(s.monitor.badge) == fault
      && (!fault ==> s.monitor.badge == g && Sensible(s.monitor.msg) && Proper(p.scripts[g]))
  {
    var g := s.slot.value;
    BadgesDecode(g);
    assert Proper(p.scripts[g]);
  }

  lemma AnswerKeepsCore(p: Plan, s: State)
    requires Core(p, s) && s.monitor.Saved? && (IsFault(s.monitor.badge) || !s.monitor.msg.Exit?)
    ensures Core(p, Apply(p, s, MonitorStep)) && Apply(p, s, MonitorStep).monitor.Replying?
  {
    var t := Apply(p, s, MonitorStep);
    HandleCases(p, s);
    forall h | 0 <= h < |t.guests| ensures GuestFits(p, t, h) {
      assert GuestFits(p, s, h);
    }
  }

  lemma ExitKeepsCore(p: Plan, s: State)
    requires Core(p, s) && s.monitor.Saved? && !IsFault(s.monitor.badge) && s.monitor.msg.Exit?
    ensures Core(p, Apply(p, s, MonitorStep))
  {
    var t := Apply(p, s, MonitorStep);
    HandleCases(p, s);
    var g := s.slot.value;
    FlagsUpdate(s.guests, g, t.guests[g]);
    forall h | 0 <= h < |t.guests| ensures GuestFits(p, t, h) {
      assert GuestFits(p, s, h);
    }
  }

  lemma ReplyKeepsCore(p: Plan, s: State)
    requires Core(p, s) && s.monitor.Replying?
    ensures Core(p, Apply(p, s, MonitorStep))
  {
    var t := Apply(p, s, MonitorStep);
    var g := s.slot.value;
    FlagsUpdate(s.guests, g, t.guests[g]);
    forall h | 0 <= h < |t.guests| ensures GuestFits(p, t, h) {
      assert GuestFits(p, s, h);
    }
  }

  lemma StepKeepsCore(p: Plan, s: State, a: Step)
    requires Core(p, s) && Enabled(p, s, a)
    ensures Core(p, Apply(p, s, a))
  {
    match a
    case Send(g) => GuestKeepsCore(p, s, g, false);
    case Fault(g) => GuestKeepsCore(p, s, g, true);
    case Receive(g) => ReceiveKeepsCore(p, s, g);
    case MonitorStep =>
      if s.monitor.Received? {
        SaveKeepsCore(p, s);
      } else if s.monitor.Replying? {
        ReplyKeepsCore(p, s);
      } else if !IsFault(s.monitor.badge) && s.monitor.msg.Exit? {
        ExitKeepsCore(p, s);
      } else {
        AnswerKeepsCore(p, s);
      }
  }

  /** One step adds at most the entry of the message being handled. */
  lemma StepKeepsFaithful(p: Plan, s: State, a: Step)
    requires Core(p, s) && Faithful(p, s) && Enabled(p, s, a)
    ensures Faithful(p, Apply(p, s, a))
  {
    var t := Apply(p, s, a);
    if a.MonitorStep? && s.monitor.Saved? && !IsFault(s.monitor.badge) && s.monitor.msg.DeepResults? {
      HandleCases(p, s);
      var m := s.monitor.msg;
      var g := s.slot.value;
      assert Reports(p, p.scripts[g][s.guests[g].pc], Key(m.bm, m.idx), Stored(p, m));
      assert Reported(p, Key(m.bm, m.idx), Stored(p, m));
    } else {
      assert t.store == s.store;
    }
  }

  /** A guest's calls are carried out one by one, and the entry is there when one counts. */
  lemma StepHandles(p: Plan, s: State, a: Step, g: nat)
    requires Core(p, s) && Enabled(p, s, a) && 1 <= g < |s.guests|
    ensures var t := Apply(p, s, a);
      && |t.guests| == |s.guests|
      && Handled(t, g) <= Handled(s, g) + 1
      && (Handled(t, g) == Handled(s, g) + 1 ==>
            Handled(s, g) < |p.scripts[g]| && HasEntry(t, p.scripts[g][Handled(s, g)]))
      && (forall key :: key in s.store ==> key in t.store)
  {
    assert GuestFits(p, s, g);
    if a.MonitorStep? && s.monitor.Saved? { HandleCases(p, s); }
  }

  lemma StepKeepsComplete(p: Plan, s: State, a: Step)
    requires Core(p, s) && Complete(p, s) && Enabled(p, s, a)
    ensures |Apply(p, s, a).guests| == |p.scripts| && Complete(p, Apply(p, s, a))
  {
    StepKeepsCore(p, s, a);
    var t := Apply(p, s, a);
    forall g, k | 1 <= g < |t.guests| && 0 <= k < Handled(t, g) && k < |p.scripts[g]|
      ensures HasEntry(t, p.scripts[g][k])
    {
      StepHandles(p, s, a, g);
      assert k < Handled(s, g) ==> HasEntry(s, p.scripts[g][k]);
    }
  }

  // ---------------------------------------------------------------------------
  // Every run ends
  // ---------------------------------------------------------------------------

  function GuestRank(script: seq<Msg>, x: Guest): nat {
    6 * (if x.pc < |script| then |script| - x.pc else 0) +
    match x.status
    case Running => 5
    case Sending(_) => 4
    case _ => 0
  }

  function MonitorRank(m: Monitor): nat {
    match m
    case Received(_, _) => 3
    case Saved(_, _) => 2
    case Replying => 1
    case _ => 0
  }

  function Ranks(p: Plan, guests: seq<Guest>): (r: seq<nat>)
    requires |guests| == |p.scripts|
    ensures |r| == |guests|
    ensures forall g :: 0 <= g < |r| ==> r[g] == GuestRank(p.scripts[g], guests[g])
  {
    seq(|guests|, g requires 0 <= g < |guests| => GuestRank(p.scripts[g], guests[g]))
  }

  /** A bound on the steps still to come. */
  function Rank(p: Plan, s: State): nat
    requires |s.guests| == |p.scripts|
  {
    Sum(Ranks(p, s.guests)) + MonitorRank(s.monitor)
  }

  lemma RanksUpdate(p: Plan, guests: seq<Guest>, g: nat, x: Guest)
    requires |guests| == |p.scripts| && g < |guests|
    ensures Sum(Ranks(p, guests[g := x]))
         == Sum(Ranks(p, guests)) - GuestRank(p.scripts[g], guests[g]) + GuestRank(p.scripts[g], x)
  {
    assert Ranks(p, guests[g := x]) == Ranks(p, guests)[g := GuestRank(p.scripts[g], x)];
    SumUpdate(Ranks(p, guests), g, GuestRank(p.scripts[g], x));
  }

  /** It is enough to look at the guest a step concerns and at the monitor. */
  lemma OneGuestRanks(p: Plan, s: State, t: State, g: nat)
    requires |s.guests| == |p.scripts| && g < |s.guests| && |t.guests| == |s.guests|
    requires t.guests == s.guests[g := t.guests[g]]
    requires GuestRank(p.scripts[g], t.guests[g]) + MonitorRank(t.monitor)
           < GuestRank(p.scripts[g], s.guests[g]) + MonitorRank(s.monitor)
    ensures Rank(p, t) < Rank(p, s)
  {
    RanksUpdate(p, s.guests, g, t.guests[g]);
  }

  lemma HandleRanks(p: Plan, s: State)
    requires Core(p, s) && s.monitor.Saved?
    ensures |Apply(p, s, MonitorStep).guests| == |p.scripts| && Rank(p, Apply(p, s, MonitorStep)) < Rank(p, s)
  {
    var t := Apply(p, s, MonitorStep);
    HandleCases(p, s);
    assert t.guests == s.guests[s.slot.value := t.guests[s.slot.value]];
    OneGuestRanks(p, s, t, s.slot.value);
  }

  lemma ReplyRanks(p: Plan, s: State)
    requires Core(p, s) && s.monitor.Replying?
    ensures |Apply(p, s, MonitorStep).guests| == |p.scripts| && Rank(p, Apply(p, s, MonitorStep)) < Rank(p, s)
  {
    OneGuestRanks(p, s, Apply(p, s, MonitorStep), s.slot.value);
  }

  lemma StepRanks(p: Plan, s: State, a: Step)
    requires Core(p, s) && Enabled(p, s, a)
    ensures |Apply(p, s, a).guests| == |p.scripts| && Rank(p, Apply(p, s, a)) < Rank(p, s)
  {
    match a
    case Send(g) => OneGuestRanks(p, s, Apply(p, s, a), g);
    case Fault(g) => OneGuestRanks(p, s, Apply(p, s, a), g);
    case Receive(g) => OneGuestRanks(p, s, Apply(p, s, a), g);
    case MonitorStep =>
      if s.monitor.Saved? { HandleRanks(p, s); } else if s.monitor.Replying? { ReplyRanks(p, s); }
  }

  lemma StepKeepsInv(p: Plan, s: State, t: State)
    requires Inv(p, s) && Next(p, s, t)
    ensures Inv(p, t) && Rank(p, t) < Rank(p, s)
  {
    var a :| Enabled(p, s, a) && t == Apply(p, s, a);
    StepKeepsCore(p, s, a);
    StepKeepsComplete(p, s, a);
    StepKeepsFaithful(p, s, a);
    StepRanks(p, s, a);
  }

  lemma {:induction false} RunKeepsInv(p: Plan, run: seq<State>, k: nat)
    requires ValidPlan(p) && IsRun(p, run) && k < |run|
    ensures Inv(p, run[0]) && Inv(p, run[k]) && Rank(p, run[k]) + k <= Rank(p, run[0])
    decreases k
  {
    if k == 0 {
      InitHolds(p, run[0]);
    } else {
      RunKeepsInv(p, run, k - 1);
      StepKeepsInv(p, run[k - 1], run[k]);
    }
  }

  ghost predicate Stuck(p: Plan, s: State) { forall a :: !Enabled(p, s, a) }

  /** The monitor can only wait for ever if some guest has faulted. */
  lemma StuckMeansFinished(p: Plan, s: State)
    requires Core(p, s) && Stuck(p, s)
    ensures s.monitor.Finished? || exists g :: 1 <= g < |s.guests| && s.guests[g].status.Halted?
  {
    assert !Enabled(p, s, MonitorStep);
    if s.monitor.Receiving? && !exists g :: 1 <= g < |s.guests| && s.guests[g].status.Halted? {
      forall g | 0 <= g < |s.guests| ensures Flags(s.guests)[g] == 1 {
        assert GuestFits(p, s, g) && !Enabled(p, s, Fault(g)) && !Enabled(p, s, Receive(g));
      }
      SumConstant(Flags(s.guests), 1);
    }
  }

  /** When the monitor has finished, every guest has exited and had all its calls carried out. */
  lemma FinishedMeansAllDead(p: Plan, s: State, g: nat)
    requires Core(p, s) && s.monitor.Finished? && 1 <= g < |s.guests|
    ensures s.guests[g].status.Dead? && Handled(s, g) == |p.scripts[g]|
    ensures p.scripts[g][|p.scripts[g]| - 1] == Exit(s.guests[g].exit)
  {
    AllFlagsSet(Flags(s.guests));
    assert Flags(s.guests)[g] == 1;
    assert GuestFits(p, s, g);
  }

  // ---------------------------------------------------------------------------
  // Only a fault stops a guest
  // ---------------------------------------------------------------------------

  /** Where a guest that ends up halted can come from. */
  lemma StepTowardsHalt(p: Plan, s: State, t: State, g: nat)
    requires Core(p, s) && Next(p, s, t) && g < |t.guests|
    ensures g < |s.guests|
    ensures t.guests[g].status.Halted? ==> s.guests[g].status.Halted? || s.guests[g].status == Waiting(true)
    ensures t.guests[g].status == Waiting(true) ==> s.guests[g].status == Waiting(true) || s.guests[g].status == Sending(true)
  {
  }

  ghost predicate HasFaulted(run: seq<State>, g: nat, k: nat) {
    exists j :: 0 <= j <= k && j < |run| && g < |run[j].guests| && run[j].guests[g].status == Sending(true)
  }

  /** A guest that is halted, or whose fault is being handled, was seen sending a fault before. */
  lemma {:induction false} HaltedHasFaulted(p: Plan, run: seq<State>, g: nat, k: nat)
    requires ValidPlan(p) && IsRun(p, run) && k < |run| && g < |run[k].guests|
    requires run[k].guests[g].status.Halted? || run[k].guests[g].status == Waiting(true)
    ensures HasFaulted(run, g, k)
    decreases k
  {
    assert k > 0;
    RunKeepsInv(p, run, k - 1);
    StepTowardsHalt(p, run[k - 1], run[k], g);
    if run[k - 1].guests[g].status != Sending(true) {
      HaltedHasFaulted(p, run, g, k - 1);
    }
  }

  /** No guest is ever seen sending a fault. */
  ghost predicate FaultFree(run: seq<State>) {
    forall k, g :: 0 <= k < |run| && 0 <= g < |run[k].guests| ==> run[k].guests[g].status != Sending(true)
  }

  lemma FaultFreeNeverHalts(p: Plan, run: seq<State>, k: nat, g: nat)
    requires ValidPlan(p) && IsRun(p, run) && FaultFree(run) && k < |run| && g < |run[k].guests|
    ensures !run[k].guests[g].status.Halted?
  {
    if run[k].guests[g].status.Halted? {
      HaltedHasFaulted(p, run, g, k);
    }
  }

  // ---------------------------------------------------------------------------
  // What a guest reports
  // ---------------------------------------------------------------------------

  function DeepCalls(bm: nat, stamps: seq<Stamp>): (m: seq<Msg>)
    ensures |m| == |stamps|
    ensures forall i :: 0 <= i < |m| ==> m[i] == DeepResults(bm, i, stamps[i])
  {
    seq(|stamps|, i requires 0 <= i < |stamps| => DeepResults(bm, i, stamps[i]))
  }

  /** The last two benchmarks ask the monitor for one stamp per measurement. */
  function StampCalls(bm: nat, n: nat): seq<Msg> {
    if bm >= 3 then seq(n, _ => GetStamp) else []
  }

  function ReportCalls(bm: nat, stamps: seq<Stamp>): seq<Msg> { [EndResults(bm)] + DeepCalls(bm, stamps) }

  function BenchmarkCalls(data: seq<seq<Stamp>>, count: nat): seq<Msg>
    requires count <= |data|
  {
    if count == 0 then []
    else
      var bm := count - 1;
      BenchmarkCalls(data, bm) + (StampCalls(bm, |data[bm]|) + ReportCalls(bm, data[bm]))
  }

  /** The calls of a guest that measures `data`: the greeting, then five benchmarks. */
  function Calls(data: seq<seq<Stamp>>): seq<Msg> { [Puts] + BenchmarkCalls(data, |data|) }

  /** A guest completes its benchmarks, or stops early, after some of its calls, with a
      message and an exit status other than zero. */
  datatype Fate = Completes | Stops(after: nat, code: int)

  predicate FateFits(data: seq<seq<Stamp>>, fate: Fate) {
    fate.Stops? ==> fate.after <= |Calls(data)| && fate.code != 0
  }

  function Script(data: seq<seq<Stamp>>, fate: Fate): seq<Msg>
    requires FateFits(data, fate)
  {
    match fate
    case Completes => Calls(data) + [Exit(0)]
    case Stops(after, code) => Calls(data)[..after] + [Puts, Exit(code)]
  }

  function ExitCode(fate: Fate): int { if fate.Completes? then 0 else fate.code }

  predicate FromData(data: seq<seq<Stamp>>, m: Msg) {
    && !m.Exit? && !m.SeL4Fault?
    && (m.EndResults? ==> m.bm < |data|)
    && (m.DeepResults? ==> m.bm < |data| && m.idx < |data[m.bm]| && m.stamp == data[m.bm][m.idx])
  }

  lemma {:induction false} CallsFromData(data: seq<seq<Stamp>>, count: nat)
    requires count <= |data|
    ensures forall m :: m in BenchmarkCalls(data, count) ==> FromData(data, m)
    decreases count
  {
    if count > 0 { CallsFromData(data, count - 1); }
  }

  lemma InEither(a: seq<Msg>, b: seq<Msg>, x: Msg)
    requires x in a || x in b
    ensures x in a + b
  {
  }

  lemma DeepCallIn(before: seq<Msg>, bm: nat, stamps: seq<Stamp>, i: nat)
    requires i < |stamps|
    ensures DeepResults(bm, i, stamps[i]) in before + ReportCalls(bm, stamps)
  {
    var calls := before + ReportCalls(bm, stamps);
    assert calls[|before| + 1 + i] == DeepCalls(bm, stamps)[i];
  }

  lemma {:induction false} EveryStampCalled(data: seq<seq<Stamp>>, count: nat, bm: nat, i: nat)
    requires count <= |data| && bm < count && i < |data[bm]|
    ensures DeepResults(bm, i, data[bm][i]) in BenchmarkCalls(data, count)
    decreases count
  {
    var last := count - 1;
    var x := DeepResults(bm, i, data[bm][i]);
    var a, c := BenchmarkCalls(data, last), StampCalls(last, |data[last]|) + ReportCalls(last, data[last]);
    if bm == last {
      DeepCallIn(StampCalls(last, |data[last]|), bm, data[bm], i);
    } else {
      EveryStampCalled(data, last, bm, i);
    }
    InEither(a, c, x);
  }

  lemma ScriptFromData(data: seq<seq<Stamp>>, fate: Fate, k: nat)
    requires FateFits(data, fate) && k < |Script(data, fate)|
    ensures k < |Script(data, fate)| - 1 ==> FromData(data, Script(data, fate)[k])
    ensures k == |Script(data, fate)| - 1 ==> Script(data, fate)[k] == Exit(ExitCode(fate))
  {
    var c, script := BenchmarkCalls(data, |data|), Script(data, fate);
    CallsFromData(data, |data|);
    if 0 < k < |script| - 1 && k <= |c| {
      assert c[k - 1] in c;
      assert Calls(data)[k] == c[k - 1];
    }
  }

  lemma ScriptIsProper(data: seq<seq<Stamp>>, fate: Fate)
    requires |data| == NUM_BENCHMARKS && FateFits(data, fate)
    ensures Proper(Script(data, fate))
  {
    var script := Script(data, fate);
    forall k | 0 <= k < |script| ensures Sensible(script[k]) && (script[k].Exit? ==> k == |script| - 1) {
      ScriptFromData(data, fate, k);
    }
  }

  lemma OneMoreBenchmark(data: seq<seq<Stamp>>, bm: nat)
    requires bm < |data|
    ensures [Puts] + BenchmarkCalls(data, bm + 1)
         == ([Puts] + BenchmarkCalls(data, bm)) + (StampCalls(bm, |data[bm]|) + ReportCalls(bm, data[bm]))
  {
    var x, y := BenchmarkCalls(data, bm), StampCalls(bm, |data[bm]|) + ReportCalls(bm, data[bm]);
    assert [Puts] + (x + y) == ([Puts] + x) + y;
  }

  method ReportResults(r: Results, bm: nat, ghost stamps: seq<Stamp>, ghost range: nat) returns (calls: seq<Msg>)
    requires range > 0 && r.Shape(|stamps|) && r.Stored(stamps, range, |stamps|)
    ensures calls == ReportCalls(bm, stamps)
  {
    calls := [EndResults(bm)];
    for i := 0 to r.start.Length
      invariant calls == [EndResults(bm)] + DeepCalls(bm, stamps[..i])
    {
      calls := calls + [DeepResults(bm, i, Stamp(r.start[i], r.end[i]))];
    }
    assert stamps[..|stamps|] == stamps;
  }

  /** The guest's program, with one results structure used for all benchmarks in turn. */
  method RunGuest(r: Results, data: seq<seq<Stamp>>, range: nat, n: nat) returns (calls: seq<Msg>)
    requires n > 0 && range > 0 && r.Shape(n)
    requires forall bm :: 0 <= bm < |data| ==> |data[bm]| == n
    modifies r, r.start, r.end, r.elapsed
    ensures calls == Script(data, Completes)
  {
    calls := [Puts];
    for bm := 0 to |data|
      invariant calls == [Puts] + BenchmarkCalls(data, bm)
    {
      r.RunBenchmark(data[bm], range);
      var report := ReportResults(r, bm, data[bm], range);
      OneMoreBenchmark(data, bm);
      calls := calls + (StampCalls(bm, n) + report);
    }
    calls := calls + [Exit(0)];
  }

  // ---------------------------------------------------------------------------
  // End to end
  // ---------------------------------------------------------------------------

  /** Measurements and fates of all guests: per guest, benchmark and iteration. Entry 0 is
      not used. */
  datatype Measured = Measured(data: seq<seq<seq<Stamp>>>, fates: seq<Fate>, n: nat, range: nat)

  ghost predicate ValidMeasured(d: Measured) {
    && 2 <= |d.data| <= FAULT_BIT && |d.fates| == |d.data| && d.range > 0
    && (forall g :: 0 <= g < |d.data| ==> |d.data[g]| == NUM_BENCHMARKS)
    && (forall g, bm :: 0 <= g < |d.data| && 0 <= bm < NUM_BENCHMARKS && bm < |d.data[g]| ==> |d.data[g][bm]| == d.n)
    && (forall g :: 0 <= g < |d.data| ==> FateFits(d.data[g], d.fates[g]))
  }

  function PlanFor(d: Measured): (p: Plan)
    requires |d.fates| == |d.data| && forall g :: 0 <= g < |d.data| ==> FateFits(d.data[g], d.fates[g])
    ensures |p.scripts| == |d.data| && p.range == d.range
    ensures forall g :: 0 <= g < |d.data| ==> p.scripts[g] == Script(d.data[g], d.fates[g])
  {
    Plan(seq(|d.data|, g requires 0 <= g < |d.data| => Script(d.data[g], d.fates[g])), d.range)
  }

  function Expected(d: Measured, g: nat, bm: nat, i: nat): Entry
    requires d.range > 0 && g < |d.data| && bm < |d.data[g]| && i < |d.data[g][bm]|
  {
    var st := d.data[g][bm][i];
    Entry(st.start, st.end, Elapsed(st, d.range))
  }

  predicate ArrivedFrom(d: Measured, s: State, g: nat, bm: nat, i: nat)
    requires d.range > 0 && g < |d.data| && bm < |d.data[g]| && i < |d.data[g][bm]|
  {
    Key(bm, i) in s.store && s.store[Key(bm, i)] == Expected(d, g, bm, i)
  }

  /** The entry for iteration i of benchmark bm is there and is what a guest measured. */
  ghost predicate Arrived(d: Measured, s: State, bm: nat, i: nat)
    requires ValidMeasured(d) && bm < NUM_BENCHMARKS && i < d.n
  {
    exists g :: 1 <= g < |d.data| && ArrivedFrom(d, s, g, bm, i)
  }

  lemma ReportedIsExpected(d: Measured, bm: nat, i: nat, e: Entry)
    requires ValidMeasured(d) && bm < NUM_BENCHMARKS && i < d.n && Reported(PlanFor(d), Key(bm, i), e)
    ensures exists g :: 1 <= g < |d.data| && e == Expected(d, g, bm, i)
  {
    var p := PlanFor(d);
    var g, k :| 1 <= g < |p.scripts| && 0 <= k < |p.scripts[g]| && Reports(p, p.scripts[g][k], Key(bm, i), e);
    ScriptFromData(d.data[g], d.fates[g], k);
    assert e == Expected(d, g, bm, i);
  }

  /** At any time, an entry that is there is what a guest measured. */
  lemma StoredIsMeasured(d: Measured, s: State, bm: nat, i: nat)
    requires ValidMeasured(d) && Faithful(PlanFor(d), s) && bm < NUM_BENCHMARKS && i < d.n && Key(bm, i) in s.store
    ensures Arrived(d, s, bm, i)
  {
    ReportedIsExpected(d, bm, i, s.store[Key(bm, i)]);
    var g :| 1 <= g < |d.data| && s.store[Key(bm, i)] == Expected(d, g, bm, i);
    assert ArrivedFrom(d, s, g, bm, i);
  }

  lemma CallInScript(data: seq<seq<Stamp>>, bm: nat, i: nat) returns (k: nat)
    requires bm < |data| && i < |data[bm]|
    ensures k < |Script(data, Completes)| && Script(data, Completes)[k] == DeepResults(bm, i, data[bm][i])
  {
    var c := BenchmarkCalls(data, |data|);
    EveryStampCalled(data, |data|, bm, i);
    var j :| 0 <= j < |c| && c[j] == DeepResults(bm, i, data[bm][i]);
    k := j + 1;
  }

  /** A guest that completes leaves an entry for everything. */
  lemma CompletedHasEntry(d: Measured, s: State, g: nat, bm: nat, i: nat)
    requires ValidMeasured(d) && Inv(PlanFor(d), s) && s.monitor.Finished? && bm < NUM_BENCHMARKS && i < d.n
    requires 1 <= g < |d.data| && d.fates[g].Completes?
    ensures Key(bm, i) in s.store
  {
    var p := PlanFor(d);
    FinishedMeansAllDead(p, s, g);
    var k := CallInScript(d.data[g], bm, i);
    assert HasEntry(s, p.scripts[g][k]);
  }

  ghost predicate AllClean(s: State) { forall g :: 1 <= g < |s.guests| ==> s.guests[g].exit == 0 }

  /** The exit statuses tell exactly whether every guest has completed. */
  lemma StatusesTell(d: Measured, s: State)
    requires ValidMeasured(d) && Inv(PlanFor(d), s) && s.monitor.Finished?
    ensures AllClean(s) <==> forall g :: 1 <= g < |d.fates| ==> d.fates[g].Completes?
  {
    var p := PlanFor(d);
    forall g | 1 <= g < |d.fates| ensures s.guests[g].exit == 0 <==> d.fates[g].Completes? {
      FinishedMeansAllDead(p, s, g);
      ScriptFromData(d.data[g], d.fates[g], |p.scripts[g]| - 1);
      assert FateFits(d.data[g], d.fates[g]);
    }
  }

  /** The driver's last loop over the guest table: zero exactly if every guest exited cleanly. */
  method FinalStatus(guests: seq<Guest>) returns (code: int)
    requires |guests| > 0
    ensures code == 0 <==> forall g :: 1 <= g < |guests| ==> guests[g].exit == 0
  {
    for g := 1 to |guests|
      invariant forall h :: 1 <= h < g ==> guests[h].exit == 0
    {
      if guests[g].exit != 0 { return guests[g].exit; }
    }
    code := 0;
  }

  lemma SoleGuest(d: Measured, s: State, bm: nat, i: nat)
    requires ValidMeasured(d) && |d.data| == 2 && bm < NUM_BENCHMARKS && i < d.n && Arrived(d, s, bm, i)
    ensures ArrivedFrom(d, s, 1, bm, i)
  {
  }

  /** In every state: the monitor has not failed, waits for a message only with an empty reply
      slot, and a message at hand carries the badge of the guest that will get the reply. */
  predicate Safe(s: State) {
    && !s.monitor.Failed?
    && (s.monitor.Receiving? ==> s.slot == None)
    && (s.monitor.Saved? ==> s.slot == Some(WithoutFaultBit(s.monitor.badge)))
    && (s.monitor.Saved? ==> (IsFault(s.monitor.badge) <==> s.monitor.msg.SeL4Fault?))
  }

  lemma InvIsSafe(p: Plan, s: State)
    requires Core(p, s)
    ensures Safe(s)
  {
    if s.monitor.Saved? {
      HandleCases(p, s);
      BadgesDecode(s.slot.value);
    }
  }

  lemma PlanIsValid(d: Measured)
    requires ValidMeasured(d)
    ensures ValidPlan(PlanFor(d))
  {
    forall g | 1 <= g < |d.data| ensures Proper(PlanFor(d).scripts[g]) { ScriptIsProper(d.data[g], d.fates[g]); }
  }

  /** Every entry that is there is as measured. */
  ghost predicate StoreFits(d: Measured, s: State)
    requires ValidMeasured(d)
  {
    forall bm, i :: 0 <= bm < NUM_BENCHMARKS && 0 <= i < d.n && Key(bm, i) in s.store ==> Arrived(d, s, bm, i)
  }

  /** Every entry is there as measured, and with a single guest it is that guest's. */
  ghost predicate StoreComplete(d: Measured, s: State)
    requires ValidMeasured(d)
  {
    && (forall bm, i :: 0 <= bm < NUM_BENCHMARKS && 0 <= i < d.n ==> Arrived(d, s, bm, i))
    && (|d.data| == 2 ==> forall bm, i :: 0 <= bm < NUM_BENCHMARKS && 0 <= i < d.n ==> ArrivedFrom(d, s, 1, bm, i))
  }

  lemma CleanIsComplete(d: Measured, s: State)
    requires ValidMeasured(d) && Inv(PlanFor(d), s) && s.monitor.Finished? && AllClean(s)
    ensures StoreComplete(d, s)
  {
    StatusesTell(d, s);
    forall bm, i | 0 <= bm < NUM_BENCHMARKS && 0 <= i < d.n
      ensures Arrived(d, s, bm, i) && (|d.data| == 2 ==> ArrivedFrom(d, s, 1, bm, i))
    {
      CompletedHasEntry(d, s, 1, bm, i);
      StoredIsMeasured(d, s, bm, i);
      if |d.data| == 2 { SoleGuest(d, s, bm, i); }
    }
  }

  /** What a run can end with. */
  ghost predicate EndsWell(d: Measured, run: seq<State>)
    requires ValidMeasured(d) && run != []
  {
    var last := run[|run| - 1];
    && (Stuck(PlanFor(d), last) ==> last.monitor.Finished? || !FaultFree(run))
    && (last.monitor.Finished? ==>
          (AllClean(last) <==> forall g :: 1 <= g < |d.fates| ==> d.fates[g].Completes?))
    && (last.monitor.Finished? && AllClean(last) ==> StoreComplete(d, last))
  }

  lemma RunEndsWell(d: Measured, run: seq<State>)
    requires ValidMeasured(d) && IsRun(PlanFor(d), run)
    ensures EndsWell(d, run)
  {
    var p := PlanFor(d);
    var last := run[|run| - 1];
    PlanIsValid(d);
    RunKeepsInv(p, run, |run| - 1);
    if Stuck(p, last) && !last.monitor.Finished? {
      StuckMeansFinished(p, last);
      var g :| 1 <= g < |last.guests| && last.guests[g].status.Halted?;
      HaltedHasFaulted(p, run, g, |run| - 1);
    }
    if last.monitor.Finished? {
      StatusesTell(d, last);
      if AllClean(last) { CleanIsComplete(d, last); }
    }
  }

  /** For any number of guests up to the limit, any measurements and fates and any
      interleaving: the run is bounded and safe throughout, and whatever is stored is as
      measured; it can only stop with the monitor finished, unless a guest has sent a fault.
      Then the exit statuses tell whether every guest completed, and if so every iteration of
      every benchmark has arrived; with a single guest, as configured, its own. */
  lemma EveryRun(d: Measured, run: seq<State>)
    requires ValidMeasured(d) && IsRun(PlanFor(d), run)
    ensures |run[0].guests| == |PlanFor(d).scripts| && |run| <= Rank(PlanFor(d), run[0]) + 1
    ensures forall k :: 0 <= k < |run| ==> Safe(run[k]) && StoreFits(d, run[k])
    ensures EndsWell(d, run)
  {
    var p := PlanFor(d);
    PlanIsValid(d);
    forall k | 0 <= k < |run| ensures Safe(run[k]) && StoreFits(d, run[k]) {
      RunKeepsInv(p, run, k);
      InvIsSafe(p, run[k]);
      forall bm, i | 0 <= bm < NUM_BENCHMARKS && 0 <= i < d.n && Key(bm, i) in run[k].store
        ensures Arrived(d, run[k], bm, i)
      {
        StoredIsMeasured(d, run[k], bm, i);
      }
    }
    RunKeepsInv(p, run, |run| - 1);
    RunEndsWell(d, run);
  }

  /** Without a fault the run can only stop with the monitor finished; if moreover every guest
      completes, everything has arrived. */
  lemma FaultFreeRun(d: Measured, run: seq<State>)
    requires ValidMeasured(d) && IsRun(PlanFor(d), run) && FaultFree(run)
    requires Stuck(PlanFor(d), run[|run| - 1])
    ensures run[|run| - 1].monitor.Finished?
    ensures (forall g :: 1 <= g < |d.fates| ==> d.fates[g].Completes?) ==> StoreComplete(d, run[|run| - 1])
    ensures forall k, g :: 0 <= k < |run| && 0 <= g < |run[k].guests| ==> !run[k].guests[g].status.Halted?
  {
    PlanIsValid(d);
    forall k, g | 0 <= k < |run| && 0 <= g < |run[k].guests| ensures !run[k].guests[g].status.Halted? {
      FaultFreeNeverHalts(PlanFor(d), run, k, g);
    }
    RunEndsWell(d, run);
  }
}
