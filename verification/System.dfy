/**
 * The two actors joined by their queues: the bounded command channel (src/jkbms/connection.rs)
 * and the unbounded event channel.  `read` counts the events the coordinator has consumed.
 */
module System {
  import opened Wrappers
  import opened JkBmsTypes
  import opened ManagerSpec
  import opened WriteLedger
  import opened ManagerWrites
  import opened ManagerRuns
  import opened CoordinatorSpec

  const COMMAND_CHANNEL_CAPACITY: nat := 32

  datatype QueuedCommand = QueuedCommand(command: WriteCommand, seqNo: nat)

  datatype State = State(manager: Manager, coordinator: Coordinator, channel: seq<QueuedCommand>, read: nat)

  /** One turn of one of the actors.  Requests and broker events come at any time. */
  datatype Action =
    | Serial(input: Input)
    | Deliver(write: WriteAnswers)
    | ReadEvent(now: Instant)
    | Request(req: IncomingRequest, room: bool)
    | BrokerUp(subscribed: bool, now: Instant)
    | BrokerDown

  /** A full channel refuses a command; it may refuse others (`room`), having closed. */
  predicate Accepts(s: State, room: bool) {
    room && |s.channel| < COMMAND_CHANNEL_CAPACITY
  }

  /** Of the writes the coordinator offers, the channel takes those it accepts. */
  function Taken(offers: seq<WriteCall>): seq<QueuedCommand> {
    if offers == [] then []
    else
      (if offers[0].accepted then [QueuedCommand(offers[0].command, offers[0].seqNo)] else []) + Taken(offers[1..])
  }

  lemma OneTaken(w: WriteCall)
    ensures Taken([w]) == if w.accepted then [QueuedCommand(w.command, w.seqNo)] else []
  {
    assert [w][1..] == [];
  }

  lemma OneOffer(s: State, req: IncomingRequest, room: bool)
    ensures Act(s, Request(req, room)).channel == s.channel +
      if Accepts(s, room) then [QueuedCommand(CommandOf(req), s.coordinator.nextSeq + 1)] else []
  {
    var c := HandleIncoming(s.coordinator, req, Accepts(s, room));
    var offers := c.writes[|s.coordinator.writes|..];
    assert offers == [WriteCall(CommandOf(req), s.coordinator.nextSeq + 1, Accepts(s, room))];
    OneTaken(offers[0]);
  }

  function Act(s: State, a: Action): State {
    match a
    case Serial(input) => if input.Command? then s else s.(manager := Step(s.manager, input))
    case Deliver(write) =>
      if s.channel == [] then s
      else
        var q := s.channel[0];
        s.(manager := Step(s.manager, Command(q.command, q.seqNo, write)), channel := s.channel[1..])
    case ReadEvent(now) =>
      if s.read < |s.manager.events| then
        s.(coordinator := HandleEvent(s.coordinator, s.manager.events[s.read].event, now), read := s.read + 1)
      else s
    case Request(req, room) =>
      var c := HandleIncoming(s.coordinator, req, Accepts(s, room));
      s.(coordinator := c, channel := s.channel + Taken(c.writes[|s.coordinator.writes|..]))
    case BrokerUp(subscribed, now) => s.(coordinator := HandleBrokerConnected(s.coordinator, subscribed, now))
    case BrokerDown => s.(coordinator := HandleBrokerDisconnected(s.coordinator))
  }

  function Start(boot: ConnectAnswers): State {
    State(OnConnect(NEW_MANAGER, boot), NEW_COORDINATOR, [], 0)
  }

  function Reach(boot: ConnectAnswers, actions: seq<Action>): State {
    if actions == [] then Start(boot) else Act(Reach(boot, actions[..|actions| - 1]), actions[|actions| - 1])
  }

  // ---- What the coordinator has issued and what it has seen ----

  function ChannelSeqs(channel: seq<QueuedCommand>): seq<nat> {
    if channel == [] then [] else [channel[0].seqNo] + ChannelSeqs(channel[1..])
  }

  /** Every sequence number the serial side took, in order: received, then still in the channel. */
  function Issued(s: State): seq<nat> {
    s.manager.received + ChannelSeqs(s.channel)
  }

  function Seen(s: State): seq<Stamped>
    requires s.read <= |s.manager.events|
  {
    s.manager.events[..s.read]
  }

  function Answered(seen: seq<Stamped>): seq<nat> {
    Numbers(AnswerLog(seen))
  }

  function LatestInfo(ev: seq<Stamped>): Option<DeviceInfo> {
    if ev == [] then None else
    var e := ev[|ev| - 1].event;
    if e.Data? && e.data.Info? then Some(e.data.info) else LatestInfo(ev[..|ev| - 1])
  }

  /** The latest configuration read back from the BMS, by a poll or after a write. */
  function LatestConfig(ev: seq<Stamped>): Option<ConfigOptions> {
    if ev == [] then None else
    var e := ev[|ev| - 1].event;
    if e.Data? && e.data.Config? then Some(e.data.config)
    else if e.WriteConfirmation? then Some(e.readback)
    else LatestConfig(ev[..|ev| - 1])
  }

  function LatestOperational(ev: seq<Stamped>): Option<OperationalData> {
    if ev == [] then None else
    var e := ev[|ev| - 1].event;
    if e.Data? && e.data.Operational? then Some(e.data.operational) else LatestOperational(ev[..|ev| - 1])
  }

  function LatestAlarms(ev: seq<Stamped>): Option<nat> {
    if ev == [] then None else
    var e := ev[|ev| - 1].event;
    if e.Data? && e.data.Alarms? then Some(e.data.raw) else LatestAlarms(ev[..|ev| - 1])
  }

  function ConnectedCount(ev: seq<Stamped>): nat {
    if ev == [] then 0 else
    ConnectedCount(ev[..|ev| - 1]) + if ev[|ev| - 1].event == Connection(Connected) then 1 else 0
  }

  function LastSnapshot(calls: seq<Call>): Option<Snapshot> {
    if calls == [] then None else
    match calls[|calls| - 1]
    case PublishSnapshot(s) => Some(s)
    case _ => LastSnapshot(calls[..|calls| - 1])
  }

  predicate HasDiscovery(calls: seq<Call>) {
    calls != [] && (calls[|calls| - 1].PublishDiscovery? || HasDiscovery(calls[..|calls| - 1]))
  }

  predicate HasSnapshot(calls: seq<Call>) {
    LastSnapshot(calls).Some?
  }

  /** Online is never announced before a discovery and a snapshot. */
  predicate OnlineAfterData(calls: seq<Call>) {
    calls == [] ||
    (OnlineAfterData(calls[..|calls| - 1]) &&
     (calls[|calls| - 1] == PublishAvailability(true) ==>
       HasDiscovery(calls[..|calls| - 1]) && HasSnapshot(calls[..|calls| - 1])))
  }

  // ---- The invariant of the coordinator's side ----

  /** The cache holds exactly the latest fragments seen. */
  predicate Cached(seen: seq<Stamped>, f: Fragments) {
    && f.deviceInfo == LatestInfo(seen) && f.configOptions == LatestConfig(seen)
    && f.operational == LatestOperational(seen) && f.alarmsRaw == LatestAlarms(seen)
    && (f.configOptions.Some? || f.operational.Some? ==> f.lastUpdateAt.Some?)
  }

  predicate Numbered(issued: seq<nat>, seen: seq<Stamped>, nextSeq: nat) {
    && Increasing(issued)
    && (forall k | k in issued :: 1 <= k <= nextSeq)
    && (forall k | k in Answered(seen) :: k in issued)
  }

  /** A frozen write is one the serial side took and whose answer has not been seen. */
  ghost predicate FrozenIsOutstanding(issued: seq<nat>, seen: seq<Stamped>, f: Freeze) {
    forall k: nat | IsFrozen(f, k) :: k in issued && k !in Answered(seen)
  }

  predicate Announced(c: Coordinator) {
    && c.discoveryPublished == AllKnown(c.fragments)
    && (AllKnown(c.fragments) ==> HasDiscovery(c.calls) && HasSnapshot(c.calls))
    && (c.jkbmsOnline ==> AllKnown(c.fragments))
    && OnlineAfterData(c.calls)
  }

  predicate Counts(seen: seq<Stamped>, c: Coordinator) {
    && c.hadFirstConnection == (ConnectedCount(seen) > 0)
    && c.jkbmsReconnectCount == Reconnects(ConnectedCount(seen))
  }

  /** What was last published shows the switches that were last read back. */
  predicate ShowsReadback(c: Coordinator) {
    c.fragments.configOptions.Some? && c.fragments.operational.Some? ==>
      var s := LastSnapshot(c.calls);
      && s.Some? && s.value.chargingSwitch == c.fragments.configOptions.value.chargingSwitch
      && s.value.balanceSwitch == c.fragments.configOptions.value.balanceSwitch
  }

  predicate AllAnswered(issued: seq<nat>, seen: seq<Stamped>) {
    forall k | k in issued :: k in Answered(seen)
  }

  ghost predicate Coherent(issued: seq<nat>, seen: seq<Stamped>, c: Coordinator) {
    && Cached(seen, c.fragments)
    && Numbered(issued, seen, c.nextSeq)
    && FrozenIsOutstanding(issued, seen, c.freeze)
    && Announced(c)
    && Counts(seen, c)
    && (AllAnswered(issued, seen) ==> ShowsReadback(c))
  }

  ghost predicate SystemInv(s: State) {
    Inv(s.manager) && s.read <= |s.manager.events| && Coherent(Issued(s), Seen(s), s.coordinator)
  }
}
