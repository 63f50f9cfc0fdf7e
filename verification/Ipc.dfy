/**
 The IPC ping-pong benchmark: a client process, a server process and the driver.

 Each thread body of the source is a program counter plus its loop counter and its two
 local stamps.  A blocking send and the matching receive are one joint step, so a thread
 whose counter stands at a blocking operation is either about to enter the kernel or
 already queued there.  The cycle counter is a clock that every step moves forward by an
 arbitrary positive amount.
 */
module Ipc {
  import opened Options
  import opened Stamps

  // ---------------------------------------------------------------------------
  // Roles
  // ---------------------------------------------------------------------------

  /** Which of its two stamps a thread reports. */
  datatype Stamp = Start | End

  /** A client body: does its timed operation wait for a reply, is there an untimed call
      before the loop, an untimed send after it, and which stamp is reported. */
  datatype ClientRole = ClientRole(call: bool, initialCall: bool, finalSend: bool, report: Stamp)

  /** A server body: a reply-receive loop, with or without a last reply, or a plain receive loop. */
  datatype ServerRole = ReplyRecv(finalReply: bool, report: Stamp) | PlainRecv

  datatype HelperFn =
    | CallFn | CallFn2 | Call10Fn | Call10Fn2
    | ReplyRecvFn2 | ReplyRecvFn | ReplyRecv10Fn2 | ReplyRecv10Fn
    | SendFn | RecvFn

  function ClientOf(f: HelperFn): Option<ClientRole> {
    match f
    case CallFn | Call10Fn => Some(ClientRole(true, false, true, End))
    case CallFn2 | Call10Fn2 => Some(ClientRole(true, true, false, Start))
    case SendFn => Some(ClientRole(false, false, true, Start))
    case _ => None
  }

  function ServerOf(f: HelperFn): Option<ServerRole> {
    match f
    case ReplyRecvFn2 | ReplyRecv10Fn2 => Some(ReplyRecv(true, End))
    case ReplyRecvFn | ReplyRecv10Fn => Some(ReplyRecv(false, Start))
    case RecvFn => Some(PlainRecv)
    case _ => None
  }

  /** One row of the parameter table, as far as the protocol goes. */
  datatype Params = Params(client: HelperFn, server: HelperFn)

  const BENCHMARK_PARAMS: seq<Params> := [
    Params(CallFn2, ReplyRecvFn2),
    Params(CallFn, ReplyRecvFn),
    Params(CallFn2, ReplyRecvFn2),
    Params(CallFn2, ReplyRecvFn2),
    Params(CallFn, ReplyRecvFn),
    Params(CallFn, ReplyRecvFn),
    Params(SendFn, RecvFn),
    Params(Call10Fn2, ReplyRecv10Fn2),
    Params(Call10Fn, ReplyRecv10Fn)
  ]

  /** A pairing of roles and a warm-up count. */
  datatype Config = Config(client: ClientRole, server: ServerRole, w: nat) {

    /** Messages the client sends outside its loop. */
    function Lead(): nat { if client.initialCall then 1 else 0 }

    function Tail(): nat { if client.finalSend then 1 else 0 }

    /** The pairing measures the last message (true) or the last reply (false). */
    predicate MeasuresMessage() { server.PlainRecv? || server.report.End? }

    /** The pairings the benchmark uses. */
    predicate Paired() {
      if server.PlainRecv? then
        client == ClientRole(false, false, true, Start)
      else
        && client.call
        && client.initialCall == server.finalReply
        && client.finalSend == !server.finalReply
        && client.report != server.report
        && (server.report.End? <==> server.finalReply)
    }
  }

  lemma TableRowsHaveRoles(j: nat)
    requires j < |BENCHMARK_PARAMS|
    ensures ClientOf(BENCHMARK_PARAMS[j].client).Some? && ServerOf(BENCHMARK_PARAMS[j].server).Some?
  {
    var p := BENCHMARK_PARAMS[j];
    assert p in BENCHMARK_PARAMS;
  }

  function TableConfig(j: nat, w: nat): Config
    requires j < |BENCHMARK_PARAMS|
  {
    TableRowsHaveRoles(j);
    Config(ClientOf(BENCHMARK_PARAMS[j].client).value, ServerOf(BENCHMARK_PARAMS[j].server).value, w)
  }

  lemma TableIsPaired(j: nat, w: nat)
    requires j < |BENCHMARK_PARAMS|
    ensures TableConfig(j, w).Paired() && TableConfig(j, w).w == w
  {
    var p := BENCHMARK_PARAMS[j];
    assert p in BENCHMARK_PARAMS;
  }

  // ---------------------------------------------------------------------------
  // The machine
  // ---------------------------------------------------------------------------

  datatype ClientPc = CInitOp | CInitAwait | CTop | COp | CAwait | CEnd | CReport | CFinal | CWait
  datatype ServerPc = SInit | STop | SReply | SRecv | SEnd | SAfter | SReport | SWait

  datatype Client = Client(pc: ClientPc, i: nat, start: nat, end: nat)

  /** `caller` is the one reply capability the kernel keeps for the server. */
  datatype Server = Server(pc: ServerPc, j: nat, start: nat, end: nat, caller: bool)

  datatype Party = FromClient | FromServer
  datatype Report = Report(from: Party, value: nat)

  /** `msgAt` and `replyAt` log when each message and each reply was transferred;
      `got` is what the driver has received on the result endpoint. */
  datatype State = State(
    now: nat, client: Client, server: Server,
    msgAt: seq<nat>, replyAt: seq<nat>, got: seq<Report>)

  datatype Step = ClientLocal | ClientSend | ClientReport | ServerLocal | ServerReply | ServerReport

  predicate Init(c: Config, s: State) {
    && s.client.pc == (if c.client.initialCall then CInitOp else CTop)
    && s.client.i == 0
    && s.server.pc == (if c.server.PlainRecv? then STop else SInit)
    && s.server.j == 0 && !s.server.caller
    && s.msgAt == [] && s.replyAt == [] && s.got == []
  }

  /** The server stands at a receive on the benchmark endpoint. */
  predicate Receiving(c: Config, sv: Server) {
    sv.pc.SInit? || sv.pc.SRecv? || (sv.pc.SAfter? && c.server.PlainRecv?)
  }

  /** The server stands at a reply. */
  predicate Replying(c: Config, sv: Server) {
    sv.pc.SReply? || (sv.pc.SAfter? && c.server.ReplyRecv? && c.server.finalReply)
  }

  predicate Enabled(c: Config, s: State, a: Step) {
    match a
    case ClientLocal => s.client.pc.CTop? || s.client.pc.CEnd?
    case ClientSend => (s.client.pc.CInitOp? || s.client.pc.COp? || s.client.pc.CFinal?) && Receiving(c, s.server)
    case ClientReport => s.client.pc.CReport? && |s.got| < 2
    case ServerLocal =>
      s.server.pc.STop? || s.server.pc.SEnd?
      || (s.server.pc.SAfter? && c.server.ReplyRecv? && !c.server.finalReply)
    case ServerReply => Replying(c, s.server)
    case ServerReport => s.server.pc.SReport? && |s.got| < 2
  }

  function Value(cl: Client, r: Stamp): nat { if r.Start? then cl.start else cl.end }

  function ServerValue(c: Config, sv: Server): nat {
    if c.server.ReplyRecv? && c.server.report.Start? then sv.start else sv.end
  }

  function ClientLocalStep(c: Config, cl: Client, at: nat): Client {
    if cl.pc.CTop? then
      if cl.i < c.w then cl.(start := at, pc := COp) else cl.(pc := CReport)
    else
      cl.(end := at, i := cl.i + 1, pc := CTop)
  }

  /** Where the client stands once its message has been taken. */
  function AfterSend(c: Config, cl: Client): Client {
    match cl.pc
    case CInitOp => cl.(pc := CInitAwait)
    case COp => cl.(pc := if c.client.call then CAwait else CEnd)
    case _ => cl.(pc := CWait)
  }

  function AfterRecv(sv: Server, called: bool): Server {
    match sv.pc
    case SInit => sv.(pc := STop, caller := called)
    case SRecv => sv.(pc := SEnd, caller := called)
    case _ => sv.(pc := SReport, caller := called)
  }

  function ServerLocalStep(c: Config, sv: Server, at: nat): Server {
    match sv.pc
    case STop =>
      if sv.j < c.w then
        sv.(start := at, pc := if c.server.ReplyRecv? then SReply else SRecv)
      else sv.(pc := SAfter)
    case SEnd => sv.(end := at, j := sv.j + 1, pc := STop)
    case _ => sv.(pc := SReport)
  }

  function Resume(cl: Client): Client {
    match cl.pc
    case CInitAwait => cl.(pc := CTop)
    case CAwait => cl.(pc := CEnd)
    case _ => cl
  }

  /** A reply without a held reply capability reaches nobody. */
  function ReplyStep(c: Config, s: State, at: nat): State {
    var sv := s.server.(pc := if s.server.pc.SReply? then SRecv else SReport, caller := false);
    if s.server.caller then
      s.(now := at, client := Resume(s.client), server := sv, replyAt := s.replyAt + [at])
    else
      s.(now := at, server := sv)
  }

  function Apply(c: Config, s: State, a: Step, at: nat): State {
    match a
    case ClientLocal => s.(now := at, client := ClientLocalStep(c, s.client, at))
    case ClientSend =>
      s.(now := at, client := AfterSend(c, s.client),
         server := AfterRecv(s.server, c.client.call && !s.client.pc.CFinal?),
         msgAt := s.msgAt + [at])
    case ClientReport =>
      s.(now := at, client := s.client.(pc := if c.client.finalSend then CFinal else CWait),
         got := s.got + [Report(FromClient, Value(s.client, c.client.report))])
    case ServerLocal => s.(now := at, server := ServerLocalStep(c, s.server, at))
    case ServerReply => ReplyStep(c, s, at)
    case ServerReport =>
      s.(now := at, server := s.server.(pc := SWait),
         got := s.got + [Report(FromServer, ServerValue(c, s.server))])
  }

  ghost predicate Next(c: Config, s: State, t: State) {
    exists a, at: nat :: s.now < at && Enabled(c, s, a) && t == Apply(c, s, a, at)
  }

  ghost predicate IsRun(c: Config, run: seq<State>) {
    && |run| > 0 && Init(c, run[0])
    && forall k :: 0 <= k < |run| - 1 ==> Next(c, run[k], run[k + 1])
  }

  ghost predicate Stuck(c: Config, s: State) {
    forall a :: !Enabled(c, s, a)
  }

  // ---------------------------------------------------------------------------
  // Counting
  // ---------------------------------------------------------------------------

  /** Messages the client has got across. */
  function Sent(c: Config, cl: Client): nat {
    match cl.pc
    case CInitOp => 0
    case CInitAwait => 1
    case CTop | COp => c.Lead() + cl.i
    case CAwait | CEnd => c.Lead() + cl.i + 1
    case CReport | CFinal => c.Lead() + c.w
    case CWait => c.Lead() + c.w + c.Tail()
  }

  /** Replies the client has received. */
  function Answered(c: Config, cl: Client): nat {
    if !c.client.call then 0 else
      match cl.pc
      case CInitOp | CInitAwait => 0
      case CTop | COp | CAwait => c.Lead() + cl.i
      case CEnd => c.Lead() + cl.i + 1
      case _ => c.Lead() + c.w
  }

  /** Messages the server has taken. */
  function Received(c: Config, sv: Server): nat {
    var first := if c.server.ReplyRecv? then 1 else 0;
    match sv.pc
    case SInit => 0
    case STop | SReply | SRecv => first + sv.j
    case SEnd => first + sv.j + 1
    case SAfter => first + c.w
    case _ => c.w + 1
  }

  /** Replies the server has given. */
  function Replied(c: Config, sv: Server): nat {
    if c.server.PlainRecv? then 0 else
      match sv.pc
      case SInit => 0
      case STop | SReply => sv.j
      case SRecv | SEnd => sv.j + 1
      case SAfter => c.w
      case _ => c.w + if c.server.finalReply then 1 else 0
  }

  // ---------------------------------------------------------------------------
  // Stamps
  // ---------------------------------------------------------------------------

  /** The client's stamps of iteration `i`. */
  ghost predicate ClientStarted(c: Config, s: State, i: nat) {
    && s.client.start <= s.now
    && Splits(s.msgAt, s.client.start, c.Lead() + i)
    && Splits(s.replyAt, s.client.start, if c.client.call then c.Lead() + i else 0)
  }

  ghost predicate ClientEnded(c: Config, s: State, i: nat) {
    && s.client.end <= s.now
    && Splits(s.msgAt, s.client.end, c.Lead() + i + 1)
    && Splits(s.replyAt, s.client.end, if c.client.call then c.Lead() + i + 1 else 0)
  }

  /** The server's stamps of iteration `j`. */
  ghost predicate ServerStarted(c: Config, s: State, j: nat) {
    && s.server.start <= s.now
    && Splits(s.msgAt, s.server.start, if c.server.ReplyRecv? then j + 1 else j)
    && Splits(s.replyAt, s.server.start, if c.server.ReplyRecv? then j else 0)
  }

  ghost predicate ServerEnded(c: Config, s: State, j: nat) {
    && s.server.end <= s.now
    && Splits(s.msgAt, s.server.end, if c.server.ReplyRecv? then j + 2 else j + 1)
    && Splits(s.replyAt, s.server.end, if c.server.ReplyRecv? then j + 1 else 0)
  }

  // ---------------------------------------------------------------------------
  // The invariant
  // ---------------------------------------------------------------------------

  predicate CountersFit(c: Config, s: State) {
    && s.client.i <= c.w && s.server.j <= c.w
    && (s.client.pc.COp? || s.client.pc.CAwait? || s.client.pc.CEnd? ==> s.client.i < c.w)
    && (s.client.pc.CReport? || s.client.pc.CFinal? || s.client.pc.CWait? ==> s.client.i == c.w)
    && (s.client.pc.CInitOp? || s.client.pc.CInitAwait? ==> s.client.i == 0 && c.client.initialCall)
    && (s.client.pc.CAwait? ==> c.client.call)
    && (s.client.pc.CFinal? ==> c.client.finalSend)
    && (s.server.pc.SReply? || s.server.pc.SRecv? || s.server.pc.SEnd? ==> s.server.j < c.w)
    && (s.server.pc.SAfter? || s.server.pc.SReport? || s.server.pc.SWait? ==> s.server.j == c.w)
    && (s.server.pc.SInit? || s.server.pc.SReply? ==> c.server.ReplyRecv?)
    && (s.server.pc.SInit? ==> s.server.j == 0)
  }

  /** Every message sent was taken, every reply given arrived, and the server holds the
      client's reply capability exactly while the client waits for it. */
  predicate Matched(c: Config, s: State) {
    && |s.msgAt| == Sent(c, s.client) == Received(c, s.server)
    && |s.replyAt| == Answered(c, s.client) == Replied(c, s.server)
    && (s.server.caller <==> s.client.pc.CInitAwait? || s.client.pc.CAwait?)
  }

  ghost predicate Logged(s: State) {
    && (forall x :: 0 <= x < |s.msgAt| ==> s.msgAt[x] <= s.now)
    && (forall x :: 0 <= x < |s.replyAt| ==> s.replyAt[x] <= s.now)
  }

  /** The client is inside a loop iteration: past its start stamp, before its end stamp. */
  predicate ClientTiming(s: State) { s.client.pc.COp? || s.client.pc.CAwait? || s.client.pc.CEnd? }
  predicate ServerTiming(s: State) { s.server.pc.SReply? || s.server.pc.SRecv? || s.server.pc.SEnd? }

  ghost predicate ClientStamps(c: Config, s: State) {
    && (ClientTiming(s) ==> ClientStarted(c, s, s.client.i))
    && (!ClientTiming(s) && s.client.i > 0 ==> ClientStarted(c, s, s.client.i - 1))
    && (s.client.i > 0 ==> ClientEnded(c, s, s.client.i - 1))
  }

  ghost predicate ServerStamps(c: Config, s: State) {
    && (ServerTiming(s) ==> ServerStarted(c, s, s.server.j))
    && (!ServerTiming(s) && s.server.j > 0 ==> ServerStarted(c, s, s.server.j - 1))
    && (s.server.j > 0 ==> ServerEnded(c, s, s.server.j - 1))
  }

  ghost predicate Stamped(c: Config, s: State) {
    Logged(s) && ClientStamps(c, s) && ServerStamps(c, s)
  }

  predicate ClientReported(s: State) { s.client.pc.CFinal? || s.client.pc.CWait? }
  predicate ServerReported(s: State) { s.server.pc.SWait? }

  /** The driver holds exactly the reports sent so far, one per thread, unaltered. */
  predicate Delivered(c: Config, s: State) {
    var rc := Report(FromClient, Value(s.client, c.client.report));
    var rs := Report(FromServer, ServerValue(c, s.server));
    if ClientReported(s) && ServerReported(s) then s.got == [rc, rs] || s.got == [rs, rc]
    else if ClientReported(s) then s.got == [rc]
    else if ServerReported(s) then s.got == [rs]
    else s.got == []
  }

  ghost predicate Inv(c: Config, s: State) {
    CountersFit(c, s) && Matched(c, s) && Stamped(c, s) && Delivered(c, s)
  }

  // ---------------------------------------------------------------------------
  // Every step keeps it
  // ---------------------------------------------------------------------------

  lemma InitHolds(c: Config, s: State)
    requires Init(c, s)
    ensures Inv(c, s)
  {
  }

  predicate ByClient(a: Step) { a.ClientLocal? || a.ClientSend? || a.ClientReport? }

  lemma ClientMatches(c: Config, s: State, a: Step, at: nat)
    requires c.Paired() && CountersFit(c, s) && Matched(c, s) && Enabled(c, s, a) && ByClient(a)
    ensures Matched(c, Apply(c, s, a, at))
  {
  }

  lemma ServerMatches(c: Config, s: State, a: Step, at: nat)
    requires c.Paired() && CountersFit(c, s) && Matched(c, s) && Enabled(c, s, a) && !ByClient(a)
    ensures Matched(c, Apply(c, s, a, at))
  {
  }

  lemma StepMatches(c: Config, s: State, a: Step, at: nat)
    requires c.Paired() && CountersFit(c, s) && Matched(c, s) && Enabled(c, s, a)
    ensures Matched(c, Apply(c, s, a, at))
  {
    if ByClient(a) { ClientMatches(c, s, a, at); } else { ServerMatches(c, s, a, at); }
  }

  lemma StepCounts(c: Config, s: State, a: Step, at: nat)
    requires c.Paired() && CountersFit(c, s) && Matched(c, s) && Enabled(c, s, a)
    ensures CountersFit(c, Apply(c, s, a, at))
  {
  }

  /** A stamp taken now comes after everything logged so far. */
  lemma StampNow(s: State, at: nat)
    requires Logged(s) && s.now < at
    ensures Splits(s.msgAt, at, |s.msgAt|) && Splits(s.replyAt, at, |s.replyAt|)
  {
  }

  /** What a step leaves of the stamps it does not take. */
  lemma StampsKept(c: Config, s: State, t: State, at: nat)
    requires s.now < at == t.now
    requires t.msgAt == s.msgAt || t.msgAt == s.msgAt + [at]
    requires t.replyAt == s.replyAt || t.replyAt == s.replyAt + [at]
    ensures forall i: nat :: ClientStarted(c, s, i) && t.client.start == s.client.start ==> ClientStarted(c, t, i)
    ensures forall i: nat :: ClientEnded(c, s, i) && t.client.end == s.client.end ==> ClientEnded(c, t, i)
    ensures forall j: nat :: ServerStarted(c, s, j) && t.server.start == s.server.start ==> ServerStarted(c, t, j)
    ensures forall j: nat :: ServerEnded(c, s, j) && t.server.end == s.server.end ==> ServerEnded(c, t, j)
  {
    forall x: nat, n: nat | x < at && Splits(s.msgAt, x, n) ensures Splits(t.msgAt, x, n) {
      SplitsKept(s.msgAt, t.msgAt, x, n, at);
    }
    forall x: nat, n: nat | x < at && Splits(s.replyAt, x, n) ensures Splits(t.replyAt, x, n) {
      SplitsKept(s.replyAt, t.replyAt, x, n, at);
    }
  }

  /** A thread's stamps, counter and place in its loop change only by its own local steps. */
  lemma Frames(c: Config, s: State, a: Step, at: nat)
    requires CountersFit(c, s) && Enabled(c, s, a)
    ensures var t := Apply(c, s, a, at);
            && (t.msgAt == s.msgAt || t.msgAt == s.msgAt + [at])
            && (t.replyAt == s.replyAt || t.replyAt == s.replyAt + [at])
            && (!a.ClientLocal? ==>
                  && t.client.start == s.client.start && t.client.end == s.client.end
                  && t.client.i == s.client.i && (ClientTiming(t) <==> ClientTiming(s)))
            && (!a.ServerLocal? ==>
                  && t.server.start == s.server.start && t.server.end == s.server.end
                  && t.server.j == s.server.j && (ServerTiming(t) <==> ServerTiming(s)))
  {
  }

  lemma ClientLocalStamps(c: Config, s: State, at: nat)
    requires CountersFit(c, s) && Matched(c, s) && Logged(s) && ClientStamps(c, s)
    requires s.now < at && Enabled(c, s, ClientLocal)
    ensures ClientStamps(c, Apply(c, s, ClientLocal, at))
  {
    StampNow(s, at);
  }

  lemma ServerLocalStamps(c: Config, s: State, at: nat)
    requires CountersFit(c, s) && Matched(c, s) && Logged(s) && ServerStamps(c, s)
    requires s.now < at && Enabled(c, s, ServerLocal)
    ensures ServerStamps(c, Apply(c, s, ServerLocal, at))
  {
    StampNow(s, at);
  }

  lemma OtherClientStamps(c: Config, s: State, t: State, at: nat)
    requires ClientStamps(c, s) && s.now < at == t.now
    requires t.msgAt == s.msgAt || t.msgAt == s.msgAt + [at]
    requires t.replyAt == s.replyAt || t.replyAt == s.replyAt + [at]
    requires t.client.start == s.client.start && t.client.end == s.client.end
    requires t.client.i == s.client.i && (ClientTiming(t) <==> ClientTiming(s))
    ensures ClientStamps(c, t)
  {
    StampsKept(c, s, t, at);
  }

  lemma OtherServerStamps(c: Config, s: State, t: State, at: nat)
    requires ServerStamps(c, s) && s.now < at == t.now
    requires t.msgAt == s.msgAt || t.msgAt == s.msgAt + [at]
    requires t.replyAt == s.replyAt || t.replyAt == s.replyAt + [at]
    requires t.server.start == s.server.start && t.server.end == s.server.end
    requires t.server.j == s.server.j && (ServerTiming(t) <==> ServerTiming(s))
    ensures ServerStamps(c, t)
  {
    StampsKept(c, s, t, at);
  }

  lemma StepClientStamps(c: Config, s: State, a: Step, at: nat)
    requires CountersFit(c, s) && Matched(c, s) && Logged(s) && ClientStamps(c, s)
    requires s.now < at && Enabled(c, s, a)
    ensures ClientStamps(c, Apply(c, s, a, at))
  {
    Frames(c, s, a, at);
    if a.ClientLocal? { ClientLocalStamps(c, s, at); } else { OtherClientStamps(c, s, Apply(c, s, a, at), at); }
  }

  lemma StepServerStamps(c: Config, s: State, a: Step, at: nat)
    requires CountersFit(c, s) && Matched(c, s) && Logged(s) && ServerStamps(c, s)
    requires s.now < at && Enabled(c, s, a)
    ensures ServerStamps(c, Apply(c, s, a, at))
  {
    Frames(c, s, a, at);
    if a.ServerLocal? { ServerLocalStamps(c, s, at); } else { OtherServerStamps(c, s, Apply(c, s, a, at), at); }
  }

  lemma StepStamps(c: Config, s: State, a: Step, at: nat)
    requires CountersFit(c, s) && Matched(c, s) && Stamped(c, s)
    requires s.now < at && Enabled(c, s, a)
    ensures Stamped(c, Apply(c, s, a, at))
  {
    StepClientStamps(c, s, a, at);
    StepServerStamps(c, s, a, at);
    Frames(c, s, a, at);
  }

  lemma StepDelivers(c: Config, s: State, a: Step, at: nat)
    requires c.Paired() && Inv(c, s)
    requires s.now < at && Enabled(c, s, a)
    ensures Delivered(c, Apply(c, s, a, at))
  {
  }

  // ---------------------------------------------------------------------------
  // Every run ends, with both results delivered
  // ---------------------------------------------------------------------------

  function ClientRank(c: Config, cl: Client): int {
    match cl.pc
    case CInitOp => 4 * c.w + 7
    case CInitAwait => 4 * c.w + 6
    case CTop => 4 * (c.w - cl.i) + 5
    case COp => 4 * (c.w - cl.i) + 4
    case CAwait => 4 * (c.w - cl.i) + 3
    case CEnd => 4 * (c.w - cl.i) + 2
    case CReport => 2
    case CFinal => 1
    case CWait => 0
  }

  function ServerRank(c: Config, sv: Server): int {
    match sv.pc
    case SInit => 4 * c.w + 6
    case STop => 4 * (c.w - sv.j) + 5
    case SReply => 4 * (c.w - sv.j) + 4
    case SRecv => 4 * (c.w - sv.j) + 3
    case SEnd => 4 * (c.w - sv.j) + 2
    case SAfter => 2
    case SReport => 1
    case SWait => 0
  }

  /** A bound on the steps still to come. */
  function Rank(c: Config, s: State): int {
    ClientRank(c, s.client) + ServerRank(c, s.server)
  }

  lemma StepRanks(c: Config, s: State, a: Step, at: nat)
    requires CountersFit(c, s) && Enabled(c, s, a)
    ensures Rank(c, Apply(c, s, a, at)) < Rank(c, s)
  {
  }

  lemma StepKeepsInv(c: Config, s: State, t: State)
    requires c.Paired() && Inv(c, s) && Next(c, s, t)
    ensures Inv(c, t)
    ensures Rank(c, t) < Rank(c, s)
  {
    var a, at: nat :| s.now < at && Enabled(c, s, a) && t == Apply(c, s, a, at);
    StepCounts(c, s, a, at);
    StepMatches(c, s, a, at);
    StepStamps(c, s, a, at);
    StepDelivers(c, s, a, at);
    StepRanks(c, s, a, at);
  }

  /** As long as one result is missing, some thread can move. */
  lemma NeverStuckEarly(c: Config, s: State)
    requires c.Paired() && Inv(c, s) && |s.got| < 2
    ensures exists a :: Enabled(c, s, a)
  {
    if !Enabled(c, s, ClientLocal) && !Enabled(c, s, ClientSend) && !Enabled(c, s, ClientReport)
       && !Enabled(c, s, ServerLocal) && !Enabled(c, s, ServerReply) {
      assert Enabled(c, s, ServerReport);
    }
  }

  lemma RunKeepsInv(c: Config, run: seq<State>, k: nat)
    requires c.Paired() && IsRun(c, run) && k < |run|
    ensures Inv(c, run[k])
    ensures Rank(c, run[k]) + k <= Rank(c, run[0])
  {
    if k == 0 {
      InitHolds(c, run[0]);
    } else {
      RunKeepsInv(c, run, k - 1);
      StepKeepsInv(c, run[k - 1], run[k]);
    }
  }

  /** The measured event is the only message or reply between the two stamps. */
  ghost predicate Brackets(c: Config, s: State, from: nat, to: nat) {
    if c.MeasuresMessage() then
      var m := c.w - 1 + c.Lead();
      && 0 <= m < |s.msgAt|
      && from < s.msgAt[m] < to
      && (forall x :: 0 <= x < |s.msgAt| && from <= s.msgAt[x] <= to ==> x == m)
      && (forall x :: 0 <= x < |s.replyAt| ==> !(from <= s.replyAt[x] <= to))
    else
      && 0 < c.w <= |s.replyAt|
      && from < s.replyAt[c.w - 1] < to
      && (forall x :: 0 <= x < |s.replyAt| && from <= s.replyAt[x] <= to ==> x == c.w - 1)
      && (forall x :: 0 <= x < |s.msgAt| ==> !(from <= s.msgAt[x] <= to))
  }

  /** The value the driver stores for two results received in this order. */
  function StoredValue(first: nat, second: nat): nat {
    if first > second then first - second else second - first
  }

  /** What the two delivered stamps say, whichever came first. */
  ghost predicate Meaningful(c: Config, s: State) {
    && |s.got| == 2 && s.got[0].from != s.got[1].from
    && exists from: nat, to: nat ::
         && from < to
         && Brackets(c, s, from, to)
         && {s.got[0].value, s.got[1].value} == {from, to}
         && StoredValue(s.got[0].value, s.got[1].value) == to - from
  }

  /** W + 1 messages, and none, W or W + 1 replies by variant. */
  predicate AllExchanged(c: Config, s: State) {
    && |s.msgAt| == c.w + 1
    && |s.replyAt| == if c.server.PlainRecv? then 0 else if c.server.finalReply then c.w + 1 else c.w
  }

  /** Once both results are in, everything has been exchanged, whatever the warm-up count. */
  lemma DeliveredIsComplete(c: Config, s: State)
    requires c.Paired() && Inv(c, s) && |s.got| == 2
    ensures ClientReported(s) && ServerReported(s) && AllExchanged(c, s)
  {
    assert ClientReported(s) && ServerReported(s);
  }

  lemma ReportsBracket(c: Config, s: State, from: nat, to: nat)
    requires c.Paired() && c.w > 0 && CountersFit(c, s) && Matched(c, s) && ClientReported(s) && ServerReported(s)
    requires ClientStarted(c, s, c.w - 1) && ClientEnded(c, s, c.w - 1)
    requires ServerStarted(c, s, c.w - 1) && ServerEnded(c, s, c.w - 1)
    requires var rc, rs := Value(s.client, c.client.report), ServerValue(c, s.server);
      from == (if c.MeasuresMessage() then rc else rs) && to == if c.MeasuresMessage() then rs else rc
    ensures from < to && Brackets(c, s, from, to)
  {
  }

  lemma ReportedStamps(c: Config, s: State)
    requires c.w > 0 && CountersFit(c, s) && Stamped(c, s) && ClientReported(s) && ServerReported(s)
    ensures ClientStarted(c, s, c.w - 1) && ClientEnded(c, s, c.w - 1)
    ensures ServerStarted(c, s, c.w - 1) && ServerEnded(c, s, c.w - 1)
  {
  }

  lemma DeliveredIsMeaningful(c: Config, s: State)
    requires c.Paired() && c.w > 0 && Inv(c, s) && |s.got| == 2
    ensures Meaningful(c, s) && AllExchanged(c, s)
  {
    var rc, rs := Value(s.client, c.client.report), ServerValue(c, s.server);
    var from, to := if c.MeasuresMessage() then rc else rs, if c.MeasuresMessage() then rs else rc;
    DeliveredIsComplete(c, s);
    ReportedStamps(c, s);
    ReportsBracket(c, s, from, to);
    assert {rc, rs} == {from, to};
  }

  lemma RankBounds(c: Config, s: State, t: State)
    requires Init(c, s) && CountersFit(c, t)
    ensures Rank(c, s) <= 8 * c.w + 13 && Rank(c, t) >= 0
  {
  }

  lemma EveryStateOfARun(c: Config, run: seq<State>, k: nat)
    requires c.Paired() && IsRun(c, run) && k < |run|
    ensures Matched(c, run[k]) && |run[k].got| <= 2
    ensures k <= 8 * c.w + 13
    ensures |run[k].got| == 2 ==> AllExchanged(c, run[k]) && (c.w > 0 ==> Meaningful(c, run[k]))
    ensures Stuck(c, run[k]) ==> |run[k].got| == 2
  {
    RunKeepsInv(c, run, k);
    if |run[k].got| < 2 {
      NeverStuckEarly(c, run[k]);
    } else {
      DeliveredIsComplete(c, run[k]);
      if c.w > 0 { DeliveredIsMeaningful(c, run[k]); }
    }
    RankBounds(c, run[0], run[k]);
  }

  /** Total correctness: for every pairing of the table, every warm-up count and every
      interleaving, the run is bounded, keeps messages and replies matched throughout, and
      can stop only with the two results delivered; those bracket one and the same transfer. */
  lemma EveryRun(j: nat, w: nat, run: seq<State>)
    requires j < |BENCHMARK_PARAMS|
    requires IsRun(TableConfig(j, w), run)
    ensures |run| <= 8 * w + 14
    ensures forall k :: 0 <= k < |run| ==> Matched(TableConfig(j, w), run[k]) && |run[k].got| <= 2
    ensures forall k :: 0 <= k < |run| && |run[k].got| == 2 ==> AllExchanged(TableConfig(j, w), run[k])
    ensures forall k :: 0 <= k < |run| && w > 0 && |run[k].got| == 2 ==> Meaningful(TableConfig(j, w), run[k])
    ensures Stuck(TableConfig(j, w), run[|run| - 1]) ==> |run[|run| - 1].got| == 2
  {
    TableIsPaired(j, w);
    forall k | 0 <= k < |run|
      ensures Matched(TableConfig(j, w), run[k]) && |run[k].got| <= 2
      ensures |run[k].got| == 2 ==> AllExchanged(TableConfig(j, w), run[k])
      ensures w > 0 && |run[k].got| == 2 ==> Meaningful(TableConfig(j, w), run[k])
    {
      EveryStateOfARun(TableConfig(j, w), run, k);
    }
    EveryStateOfARun(TableConfig(j, w), run, |run| - 1);
  }
}
