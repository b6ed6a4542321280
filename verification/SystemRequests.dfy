/** From a request to the wire and back to what is shown: numbers, commands and values stay together. */
module SystemRequests {
  import opened Wrappers
  import opened JkBmsTypes
  import opened ManagerSpec
  import opened ManagerWrites
  import opened ManagerLink
  import opened CoordinatorSpec
  import opened System
  import Grown = ManagerRuns

  /** The requests of a run, in order; the first one gets number 1. */
  function Requests(actions: seq<Action>): seq<IncomingRequest> {
    if actions == [] then [] else
    var last := actions[|actions| - 1];
    Requests(actions[..|actions| - 1]) + if last.Request? then [last.req] else []
  }

  /** Request number `n` asked for exactly this command. */
  predicate Asked(reqs: seq<IncomingRequest>, n: nat, command: WriteCommand) {
    && 1 <= n <= |reqs| && command.on == reqs[n - 1].on
    && (command.SetCharging? <==> reqs[n - 1].RequestCharging?)
  }

  predicate QueueAsked(reqs: seq<IncomingRequest>, p: seq<PendingWrite>) {
    forall i | 0 <= i < |p| :: Asked(reqs, p[i].seqNo, p[i].command)
  }

  predicate WireAsked(reqs: seq<IncomingRequest>, wire: seq<WireWrite>) {
    forall i | 0 <= i < |wire| :: Asked(reqs, wire[i].seqNo, wire[i].command)
  }

  predicate Faithful(reqs: seq<IncomingRequest>, m: Manager) {
    QueueAsked(reqs, m.pendingWrites) && WireAsked(reqs, m.wire)
  }

  // ---- The manager mixes nothing up ----

  lemma CommandFaithful(reqs: seq<IncomingRequest>, m: Manager, command: WriteCommand, n: nat, a: WriteAnswers)
    requires Faithful(reqs, m) && Asked(reqs, n, command)
    ensures Faithful(reqs, OnWriteCommand(m, command, n, a))
  {
    hide DoWrite, HandleWriteError, Asked;
    if m.transport && m.pendingWrites == [] {
      var m0 := m.(received := m.received + [n]);
      var w := PendingWrite(command, n, m.now);
      var (m1, e) := DoWrite(m0, w, a);
      DoWriteEffect(m0, w, a);
      if e.Some? {
        WriteErrorSame(m1.(pendingWrites := m1.pendingWrites + [PendingWrite(command, n, m1.now)]), e.value);
      }
    }
  }

  lemma {:induction false} EvictFaithful(reqs: seq<IncomingRequest>, m: Manager)
    requires Faithful(reqs, m)
    ensures Faithful(reqs, EvictExpired(m)) && EvictExpired(m).transport == m.transport
    decreases |m.pendingWrites|
  {
    hide Asked;
    if m.pendingWrites != [] && ExpiredAt(m.pendingWrites[0], m.now) {
      var rest := m.(pendingWrites := m.pendingWrites[1..]);
      EvictFaithful(reqs, Emit(rest, WriteError(m.pendingWrites[0].seqNo, Expired)));
    }
  }

  lemma RetryFaithful(reqs: seq<IncomingRequest>, m: Manager, a: WriteAnswers)
    requires Faithful(reqs, m)
    ensures Faithful(reqs, OnRetryWrites(m, a))
  {
    hide DoWrite, HandleWriteError, EvictExpired, Asked;
    if m.transport {
      var m0 := m.(retryWritesScheduled := false);
      EvictFaithful(reqs, m0);
      var m1 := EvictExpired(m0);
      if m1.pendingWrites != [] {
        DoWriteEffect(m1, m1.pendingWrites[0], a);
        var (m2, e) := DoWrite(m1, m1.pendingWrites[0], a);
        if e.Some? {
          WriteErrorSame(m2, e.value);
        }
      }
    }
  }

  lemma InternalFaithful(reqs: seq<IncomingRequest>, m: Manager, c: InternalCommand, a: Answers)
    requires Faithful(reqs, m)
    ensures Faithful(reqs, HandleInternal(m, c, a))
  {
    hide OnConnect, OnRunDataPolling, OnRetryWrites;
    match c
    case Connect => ConnectSame(m, a.connect);
    case RunDataPolling => PollingSame(m, a.poll);
    case RetryWrites => RetryFaithful(reqs, m, a.write);
  }

  lemma StepFaithful(reqs: seq<IncomingRequest>, m: Manager, input: Input)
    requires Faithful(reqs, m) && (input.Command? ==> Asked(reqs, input.seqNo, input.command))
    ensures Faithful(reqs, Step(m, input))
  {
    hide HandleInternal, OnWriteCommand, Asked;
    match input
    case Tick(_) =>
    case Command(command, n, write) => CommandFaithful(reqs, m, command, n, write);
    case Internal(answers) =>
      if m.internalQueue != [] {
        InternalFaithful(reqs, m.(internalQueue := m.internalQueue[1..]), m.internalQueue[0], answers);
      }
    case Timer(i, answers) =>
      if i < |m.delayQueue| && m.delayQueue[i].due <= m.now {
        InternalFaithful(reqs, m.(delayQueue := RemoveAt(m.delayQueue, i)), m.delayQueue[i].command, answers);
      }
  }

  // ---- The composed system ----

  predicate ChannelAsked(reqs: seq<IncomingRequest>, channel: seq<QueuedCommand>) {
    forall i | 0 <= i < |channel| :: Asked(reqs, channel[i].seqNo, channel[i].command)
  }

  /** A freeze carries the value of the request it waits for. */
  predicate FreezeAsked(reqs: seq<IncomingRequest>, f: Freeze) {
    && (f.charging.Some? ==> Asked(reqs, f.charging.value.seqNo, SetCharging(f.charging.value.value)))
    && (f.balancing.Some? ==> Asked(reqs, f.balancing.value.seqNo, SetBalancing(f.balancing.value.value)))
  }

  predicate AllAsked(reqs: seq<IncomingRequest>, s: State) {
    && s.coordinator.nextSeq == |reqs|
    && Faithful(reqs, s.manager) && ChannelAsked(reqs, s.channel) && FreezeAsked(reqs, s.coordinator.freeze)
  }

  /** Numbers and freezes that were not there before do not appear. */
  predicate SameNumbers(c: Coordinator, c': Coordinator) {
    && c'.nextSeq == c.nextSeq
    && (c'.freeze.charging.Some? ==> c'.freeze.charging == c.freeze.charging)
    && (c'.freeze.balancing.Some? ==> c'.freeze.balancing == c.freeze.balancing)
  }

  lemma ReadLeavesNumbers(c: Coordinator, e: JkBmsEvent, now: Instant)
    ensures SameNumbers(c, HandleEvent(c, e, now))
  {
    if !e.Connection? {
      HandleEventFrame(c, e, now);
      hide HandleEvent, SetData;
    }
  }

  lemma BrokerLeavesNumbers(c: Coordinator, subscribed: bool, now: Instant)
    ensures var c' := HandleBrokerConnected(c, subscribed, now);
      c'.nextSeq == c.nextSeq && c'.freeze == c.freeze
  {
    hide BuildSnapshot;
  }

  lemma RequestAsks(reqs: seq<IncomingRequest>, s: State, req: IncomingRequest, room: bool)
    requires AllAsked(reqs, s)
    ensures AllAsked(reqs + [req], Act(s, Request(req, room)))
  {
    hide Clear;
    var more := reqs + [req];
    assert forall n, command | Asked(reqs, n, command) :: Asked(more, n, command);
    assert Asked(more, |more|, CommandOf(req));
    ClearOnlyRemoves(s.coordinator.freeze, |more|, FieldOf(req), req.on);
    OneOffer(s, req, room);
  }

  /** Undoing a refused freeze brings no freeze back. */
  lemma ClearOnlyRemoves(f: Freeze, n: nat, field: SwitchField, on: bool)
    ensures var f' := Clear(FreezeSwitch(f, n, field, on), n);
      && (f'.charging.Some? ==> f'.charging == f.charging)
      && (f'.balancing.Some? ==> f'.balancing == f.balancing)
  {
  }

  lemma ActAsks(reqs: seq<IncomingRequest>, s: State, a: Action)
    requires AllAsked(reqs, s)
    ensures AllAsked(if a.Request? then reqs + [a.req] else reqs, Act(s, a))
  {
    hide Asked, Faithful, Step, HandleEvent, HandleBrokerConnected;
    match a
    case Serial(input) =>
      if !input.Command? {
        StepFaithful(reqs, s.manager, input);
      }
    case Deliver(write) =>
      if s.channel != [] {
        StepFaithful(reqs, s.manager, Command(s.channel[0].command, s.channel[0].seqNo, write));
      }
    case ReadEvent(now) =>
      if s.read < |s.manager.events| {
        ReadLeavesNumbers(s.coordinator, s.manager.events[s.read].event, now);
      }
    case Request(req, room) => RequestAsks(reqs, s, req, room);
    case BrokerUp(subscribed, now) => BrokerLeavesNumbers(s.coordinator, subscribed, now);
    case BrokerDown =>
  }

  lemma {:induction false} ReachAsks(boot: ConnectAnswers, actions: seq<Action>)
    ensures AllAsked(Requests(actions), Reach(boot, actions))
    decreases |actions|
  {
    hide Act, AllAsked, OnConnect;
    if actions == [] {
      StartAsks(boot, NEW_MANAGER);
    } else {
      ReachAsks(boot, actions[..|actions| - 1]);
      ActAsks(Requests(actions[..|actions| - 1]), Reach(boot, actions[..|actions| - 1]), actions[|actions| - 1]);
      assert Requests(actions[..|actions| - 1]) + [] == Requests(actions[..|actions| - 1]);
    }
  }

  lemma StartAsks(boot: ConnectAnswers, m: Manager)
    requires m.pendingWrites == [] && m.wire == []
    ensures AllAsked([], State(OnConnect(m, boot), NEW_COORDINATOR, [], 0))
  {
    hide OnConnect;
    ConnectSame(m, boot);
  }

  /** What reaches the BMS under number `n` is what request number `n` asked for: that switch, that value. */
  lemma WireCarriesRequests(boot: ConnectAnswers, actions: seq<Action>, w: WireWrite)
    requires w in Reach(boot, actions).manager.wire
    ensures Asked(Requests(actions), w.seqNo, w.command)
  {
    hide Reach, Requests, Asked;
    ReachAsks(boot, actions);
  }

  /** A frozen switch shows the value that the request it waits for asked for, on that very switch. */
  lemma FrozenShowsItsRequest(boot: ConnectAnswers, actions: seq<Action>)
    ensures FreezeAsked(Requests(actions), Reach(boot, actions).coordinator.freeze)
  {
    hide Reach, Requests, Asked, FreezeAsked;
    ReachAsks(boot, actions);
  }

  /**
   * An accepted request reaches the command channel under its number; only a full channel, which holds
   * 32 commands, or a closed one refuses it.
   */
  lemma RequestsAreSent(boot: ConnectAnswers, actions: seq<Action>, req: IncomingRequest, room: bool)
    ensures var s := Reach(boot, actions); var s' := Act(s, Request(req, room));
      var n := |Requests(actions)| + 1;
      if room && |s.channel| < 32
      then
        && |s'.channel| == |s.channel| + 1 && s'.channel[..|s.channel|] == s.channel
        && s'.channel[|s.channel|].seqNo == n
        && Asked(Requests(actions) + [req], n, s'.channel[|s.channel|].command)
      else s'.channel == s.channel
  {
    hide Reach, Requests, Act, Faithful, ChannelAsked, FreezeAsked;
    ReachAsks(boot, actions);
    OneOffer(Reach(boot, actions), req, room);
  }

  // ---- What is shown ----

  /** What a request changes in the snapshot. */
  function Shown(before: Snapshot, req: IncomingRequest, accepted: bool, config: ConfigOptions): Snapshot {
    match req
    case RequestCharging(on) => before.(chargingSwitch := if accepted then on else config.chargingSwitch)
    case RequestBalancing(on) => before.(balanceSwitch := if accepted then on else config.balanceSwitch)
  }

  lemma RequestShows(c: Coordinator, req: IncomingRequest, accepted: bool, now: Instant)
    requires BuildSnapshot(c, now).Some? && !IsFrozen(c.freeze, c.nextSeq + 1)
    ensures BuildSnapshot(HandleIncoming(c, req, accepted), now) ==
      Some(Shown(BuildSnapshot(c, now).value, req, accepted, c.fragments.configOptions.value))
  {
    hide Aggregate;
  }

  /**
   * In every reachable state an accepted request changes its switch in the snapshot that can be built
   * next, whatever the BMS last reported, and a refused one puts it back to what was last read.  The
   * other switch and all readings stay.
   */
  lemma RequestShowsAtOnce(boot: ConnectAnswers, actions: seq<Action>, req: IncomingRequest, room: bool, now: Instant)
    requires BuildSnapshot(Reach(boot, actions).coordinator, now).Some?
    ensures var s := Reach(boot, actions); var config := s.coordinator.fragments.configOptions.value;
      BuildSnapshot(Act(s, Request(req, room)).coordinator, now) ==
        Some(Shown(BuildSnapshot(s.coordinator, now).value, req, Accepts(s, room), config))
  {
    hide Reach, BuildSnapshot, HandleIncoming, Requests, Shown;
    var s := Reach(boot, actions);
    ReachAsks(boot, actions);
    RequestShows(s.coordinator, req, Accepts(s, room), now);
  }

  /** The last availability announced. */
  function LastAvailability(calls: seq<Call>): Option<bool> {
    if calls == [] then None else
    match calls[|calls| - 1]
    case PublishAvailability(online) => Some(online)
    case _ => LastAvailability(calls[..|calls| - 1])
  }

  /** Whether the last event that settles it was a connection; a reconnect attempt settles nothing. */
  predicate Online(seen: seq<Stamped>) {
    seen != [] &&
    match seen[|seen| - 1].event
    case Connection(Connected) => true
    case Connection(Disconnected) => false
    case _ => Online(seen[..|seen| - 1])
  }

  predicate Truthful(c: Coordinator, seen: seq<Stamped>) {
    && c.jkbmsOnline == Online(seen)
    && (LastAvailability(c.calls).Some? ==> LastAvailability(c.calls).value == c.jkbmsOnline)
    && (EverConnected(seen) ==> LastAvailability(c.calls).Some?)
  }

  /** Calls that announce nothing leave the last announcement in place. */
  predicate NoAvailability(calls: seq<Call>, calls': seq<Call>) {
    LastAvailability(calls') == LastAvailability(calls)
  }

  lemma AvailabilityAppend(calls: seq<Call>, call: Call)
    ensures LastAvailability(calls + [call]) ==
      if call.PublishAvailability? then Some(call.online) else LastAvailability(calls)
  {
  }

  lemma SilentCalls(c: Coordinator, now: Instant)
    ensures NoAvailability(c.calls, PublishIfBuildable(c, now).calls)
    ensures NoAvailability(c.calls, DiscoverIfKnown(c).calls)
    ensures PublishIfBuildable(c, now).jkbmsOnline == c.jkbmsOnline && DiscoverIfKnown(c).jkbmsOnline == c.jkbmsOnline
  {
    hide PublishIfBuildable, DiscoverIfKnown, LastAvailability;
    PublishEffect(c, now);
    DiscoverEffect(c);
    var f := c.fragments;
    if PublishIfBuildable(c, now).calls != c.calls {
      var s :| PublishIfBuildable(c, now).calls == c.calls + [PublishSnapshot(s)];
      AvailabilityAppend(c.calls, PublishSnapshot(s));
    }
    if f.deviceInfo.Some? && f.configOptions.Some? {
      AvailabilityAppend(c.calls, PublishDiscovery(f.deviceInfo.value, f.configOptions.value.cellCount));
    }
  }

  lemma DataSettlesNothing(seen: seq<Stamped>, e: Stamped)
    requires !e.event.Connection?
    ensures Online(seen + [e]) == Online(seen) && EverConnected(seen + [e]) == EverConnected(seen)
  {
  }

  lemma LinkTruthful(c: Coordinator, seen: seq<Stamped>, e: Stamped)
    requires Truthful(c, seen) && e.event.Connection?
    ensures Truthful(OnConnection(c, e.event.state), seen + [e])
  {
    assert (seen + [e])[..|seen|] == seen;
  }

  lemma ReadTruthful(c: Coordinator, seen: seq<Stamped>, e: Stamped, now: Instant)
    requires Truthful(c, seen)
    ensures Truthful(HandleEvent(c, e.event, now), seen + [e])
  {
    if e.event.Connection? {
      LinkTruthful(c, seen, e);
    } else {
      hide PublishIfBuildable, DiscoverIfKnown, LastAvailability, Online, EverConnected, Absorb, AllKnown;
      DataSettlesNothing(seen, e);
      var c1 := Absorb(c, e.event, now);
      AbsorbFrame(c, e.event, now);
      SilentCalls(c1, now);
      SilentCalls(DiscoverIfKnown(c1).(discoveryPublished := true), now);
    }
  }

  lemma BrokerTruthful(c: Coordinator, seen: seq<Stamped>, subscribed: bool, now: Instant)
    requires Truthful(c, seen)
    ensures Truthful(HandleBrokerConnected(c, subscribed, now), seen)
  {
    hide PublishIfBuildable, DiscoverIfKnown, LastAvailability, Online, EverConnected;
    var c1 := c.(brokerConnected := true);
    var c2 := if c.hadFirstBrokerConnection
      then c1.(mqttReconnectCount := SaturatingIncrement(c1.mqttReconnectCount))
      else c1.(hadFirstBrokerConnection := true);
    var c3 := Called(c2, SubscribeToCommands);
    var c4 := Called(c3, PublishAvailability(c3.jkbmsOnline));
    AvailabilityAppend(c2.calls, SubscribeToCommands);
    AvailabilityAppend(c3.calls, PublishAvailability(c3.jkbmsOnline));
    SilentCalls(c4, now);
    SilentCalls(DiscoverIfKnown(c4), now);
  }

  /**
   * In every reachable state the last announced availability is the coordinator's own view of the
   * link, and that view is the last settled event it has read: a reconnect attempt changes neither.
   */
  lemma {:induction false} AvailabilityIsTruthful(boot: ConnectAnswers, actions: seq<Action>)
    ensures var s := Reach(boot, actions);
      s.read <= |s.manager.events| && Truthful(s.coordinator, Seen(s))
    decreases |actions|
  {
    hide Act, OnConnect, Truthful;
    if actions == [] {
      FreshIsTruthful(NEW_COORDINATOR);
      assert Seen(Reach(boot, actions)) == [];
    } else {
      AvailabilityIsTruthful(boot, actions[..|actions| - 1]);
      ActTruthful(Reach(boot, actions[..|actions| - 1]), actions[|actions| - 1]);
    }
  }

  lemma FreshIsTruthful(c: Coordinator)
    requires c.calls == [] && !c.jkbmsOnline
    ensures Truthful(c, [])
  {
  }

  lemma ActTruthful(s: State, a: Action)
    requires s.read <= |s.manager.events| && Truthful(s.coordinator, Seen(s))
    ensures var s' := Act(s, a); s'.read <= |s'.manager.events| && Truthful(s'.coordinator, Seen(s'))
  {
    hide Step, HandleEvent, HandleBrokerConnected, LastAvailability, Online;
    match a
    case Serial(input) =>
      Grown.StepGrows(s.manager, input);
      assert Act(s, a).read <= |Act(s, a).manager.events| && Seen(Act(s, a)) == Seen(s);
    case Deliver(write) =>
      if s.channel != [] {
        Grown.StepGrows(s.manager, Command(s.channel[0].command, s.channel[0].seqNo, write));
      }
      assert Act(s, a).read <= |Act(s, a).manager.events| && Seen(Act(s, a)) == Seen(s);
    case ReadEvent(now) =>
      if s.read < |s.manager.events| {
        ReadTruthful(s.coordinator, Seen(s), s.manager.events[s.read], now);
        assert Seen(Act(s, a)) == Seen(s) + [s.manager.events[s.read]];
      }
    case Request(req, room) =>
    case BrokerUp(subscribed, now) => BrokerTruthful(s.coordinator, Seen(s), subscribed, now);
    case BrokerDown =>
  }

  lemma ReconnectCalls(c: Coordinator, now: Instant)
    ensures var told := c.calls + [SubscribeToCommands, PublishAvailability(c.jkbmsOnline)];
      var c5 := DiscoverIfKnown(c.(calls := told));
      HandleBrokerConnected(c, true, now).calls == PublishIfBuildable(
        c5.(brokerConnected := true, hadFirstBrokerConnection := true, mqttReconnectCount :=
          if c.hadFirstBrokerConnection then SaturatingIncrement(c.mqttReconnectCount) else c.mqttReconnectCount),
        now).calls
  {
    hide BuildSnapshot;
    assert c.calls + [SubscribeToCommands] + [PublishAvailability(c.jkbmsOnline)] ==
      c.calls + [SubscribeToCommands, PublishAvailability(c.jkbmsOnline)];
  }

  /** Strictly ascending stages: each kind of call at most once, and in this order. */
  predicate InStages(calls: seq<Call>) {
    forall i, j | 0 <= i < j < |calls| :: Stage(calls[i]) < Stage(calls[j])
  }

  /** A refused subscription ends the turn: nothing else is published. */
  lemma RefusedSubscriptionEnds(c: Coordinator, now: Instant)
    ensures HandleBrokerConnected(c, false, now).calls == c.calls + [SubscribeToCommands]
  {
  }

  function Present(call: Option<Call>): seq<Call> {
    if call.Some? then [call.value] else []
  }

  lemma ToldInOrder(online: bool, d: Option<Call>, p: Option<Call>)
    requires (d.Some? ==> d.value.PublishDiscovery?) && (p.Some? ==> p.value.PublishSnapshot?)
    ensures var told := [SubscribeToCommands, PublishAvailability(online)] + Present(d) + Present(p);
      && InStages(told) && SubscribeToCommands in told && PublishAvailability(online) in told
      && ((exists x | x in told :: x.PublishDiscovery?) <==> d.Some?)
      && ((exists x | x in told :: x.PublishSnapshot?) <==> p.Some?)
  {
    var first := [SubscribeToCommands, PublishAvailability(online)];
    var told := first + Present(d) + Present(p);
    assert told[0] == SubscribeToCommands && told[1] == PublishAvailability(online);
    if d.Some? {
      assert told[2] == d.value;
    }
    if p.Some? {
      assert told[|told| - 1] == p.value;
    }
  }

  /**
   * After a reconnect whose subscription was accepted everything is told again, in the order in which
   * a subscriber needs it: availability, discovery if known, a snapshot if there is one.
   */
  lemma ReconnectRepublishes(c: Coordinator, now: Instant) returns (told: seq<Call>)
    ensures var f := c.fragments;
      && HandleBrokerConnected(c, true, now).calls == c.calls + told
      && InStages(told) && SubscribeToCommands in told && PublishAvailability(c.jkbmsOnline) in told
      && ((exists x | x in told :: x.PublishDiscovery?) <==> f.deviceInfo.Some? && f.configOptions.Some?)
      && ((exists x | x in told :: x.PublishSnapshot?) <==>
        f.configOptions.Some? && f.operational.Some? && f.lastUpdateAt.Some?)
  {
    hide HandleBrokerConnected, PublishIfBuildable, InStages;
    ReconnectCalls(c, now);
    var f := c.fragments;
    var first := [SubscribeToCommands, PublishAvailability(c.jkbmsOnline)];
    var c5 := DiscoverIfKnown(c.(calls := c.calls + first)).(brokerConnected := true, hadFirstBrokerConnection := true,
      mqttReconnectCount :=
        if c.hadFirstBrokerConnection then SaturatingIncrement(c.mqttReconnectCount) else c.mqttReconnectCount);
    var d := if f.deviceInfo.Some? && f.configOptions.Some?
      then Some(PublishDiscovery(f.deviceInfo.value, f.configOptions.value.cellCount)) else None;
    assert c5.calls == c.calls + (first + Present(d));
    PublishEffect(c5, now);
    var p: Option<Call> := None;
    if f.configOptions.Some? && f.operational.Some? && f.lastUpdateAt.Some? {
      var s :| PublishIfBuildable(c5, now).calls == c5.calls + [PublishSnapshot(s)];
      p := Some(PublishSnapshot(s));
    }
    told := first + Present(d) + Present(p);
    assert c.calls + told == c5.calls + Present(p);
    ToldInOrder(c.jkbmsOnline, d, p);
  }

  function Stage(call: Call): nat {
    match call
    case SubscribeToCommands => 0
    case PublishAvailability(_) => 1
    case PublishDiscovery(_, _) => 2
    case PublishSnapshot(_) => 3
  }
}
