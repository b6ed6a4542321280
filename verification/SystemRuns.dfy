/** What holds in every reachable state of the composed system. */
module SystemRuns {
  import opened Wrappers
  import opened JkBmsTypes
  import opened ManagerSpec
  import opened WriteLedger
  import Wakeup = ManagerWakeups
  import opened ManagerWrites
  import opened ManagerLink
  import History = ManagerEscalation
  import opened ManagerRuns
  import opened CoordinatorSpec
  import opened System
  import opened SystemSteps

  // ---- Agreement ----

  /** Nothing is on its way between the actors. */
  predicate Quiescent(s: State) {
    s.channel == [] && s.manager.pendingWrites == [] && s.read == |s.manager.events|
  }

  lemma QuietIsAnswered(s: State)
    requires SystemInv(s) && Quiescent(s)
    ensures AllAnswered(Issued(s), Seen(s))
  {
    hide Coherent, Wakeup.Wakeups, Link, History.Escalation, InOrder, Numbers, AnswerLog;
    assert Seen(s) == s.manager.events;
    var log := AnswerLog(s.manager.events);
    forall k | k in Issued(s) ensures k in Answered(Seen(s)) {
      assert k in s.manager.received;
      KnownIsReceived(s.manager.received, log, Seqs(s.manager.pendingWrites), k);
    }
  }

  /**
   * Once nothing is in flight no switch is frozen, and what was last published shows the switches
   * last read back from the BMS: after any requests, refusals, outages and broker reconnects.
   */
  lemma QuiescentAgreement(boot: ConnectAnswers, actions: seq<Action>)
    requires Quiescent(Reach(boot, actions))
    ensures var s := Reach(boot, actions); var config := LatestConfig(s.manager.events);
      && s.coordinator.freeze == Freeze(None, None)
      && (config.Some? && LatestOperational(s.manager.events).Some? ==>
        var shown := LastSnapshot(s.coordinator.calls);
        && shown.Some? && shown.value.chargingSwitch == config.value.chargingSwitch
        && shown.value.balanceSwitch == config.value.balanceSwitch)
  {
    hide Reach, Inv, AllAnswered, Numbered, Announced, Counts, LastSnapshot, LatestConfig, LatestOperational,
      LatestInfo;
    var s := Reach(boot, actions);
    ReachKeeps(boot, actions);
    QuietIsAnswered(s);
    NothingFrozen(Issued(s), Seen(s), s.coordinator.freeze);
    assert Seen(s) == s.manager.events;
  }

  // ---- Freezes ----

  lemma {:induction false} UnseenAnswer(ev: seq<Stamped>, r: nat, k: nat) returns (i: nat)
    requires r <= |ev| && k in Answered(ev) && k !in Answered(ev[..r])
    ensures r <= i < |ev| && (exists a :: AnswerIn(ev[i].event) == [a] && a.seqNo == k)
    decreases |ev|
  {
    hide Answered;
    assert ev[..|ev|] == ev;
    var n := |ev| - 1;
    assert ev[..n] + [ev[n]] == ev;
    SeenAnswers(ev[..n], ev[n], k);
    if k in Answered(ev[..n]) {
      assert ev[..n][..r] == ev[..r];
      i := UnseenAnswer(ev[..n], r, k);
    } else {
      i := n;
    }
  }

  /** Where an outstanding write is: in the channel, waiting for the link, or answered but unread. */
  ghost predicate InFlight(s: State, k: nat) {
    || k in ChannelSeqs(s.channel)
    || k in Seqs(s.manager.pendingWrites)
    || exists i | s.read <= i < |s.manager.events| ::
      exists a :: AnswerIn(s.manager.events[i].event) == [a] && a.seqNo == k
  }

  /** A frozen switch always waits for a write that is still in flight. */
  lemma FrozenIsInFlight(boot: ConnectAnswers, actions: seq<Action>, k: nat)
    requires IsFrozen(Reach(boot, actions).coordinator.freeze, k)
    ensures InFlight(Reach(boot, actions), k)
  {
    hide Reach, Wakeup.Wakeups, Link, History.Escalation, InOrder, Numbers, AnswerLog, Cached, Numbered, Announced,
      Counts, ShowsReadback, AllAnswered;
    var s := Reach(boot, actions);
    ReachKeeps(boot, actions);
    assert k in Issued(s) && k !in Answered(Seen(s));
    if k in s.manager.received {
      KnownIsReceived(s.manager.received, AnswerLog(s.manager.events), Seqs(s.manager.pendingWrites), k);
      if k !in Seqs(s.manager.pendingWrites) {
        var i := UnseenAnswer(s.manager.events, s.read, k);
      }
    }
  }

  /**
   * When the confirmation of `n` is consumed no older freeze exists, so clearing every freeze that
   * is not newer clears exactly the freeze of `n`.
   */
  lemma ConfirmationClearsItsOwn(boot: ConnectAnswers, actions: seq<Action>)
    requires var s := Reach(boot, actions);
      s.read < |s.manager.events| && s.manager.events[s.read].event.WriteConfirmation?
    ensures var s := Reach(boot, actions); var n := s.manager.events[s.read].event.seqNo;
      && (forall k: nat | IsFrozen(s.coordinator.freeze, k) :: k >= n)
      && Apply(s.coordinator.freeze, n) == Clear(s.coordinator.freeze, n)
  {
    hide Reach, Inv, Cached, Numbered, Announced, Counts, ShowsReadback, AllAnswered, Deserved;
    var s := Reach(boot, actions);
    ReachKeeps(boot, actions);
    ManagerDeserves(s);
    ApplyIsExact(Issued(s), Seen(s), s.manager.events[s.read].event, s.coordinator.freeze);
  }

  // ---- Announcements ----

  lemma {:induction false} OnlineAt(calls: seq<Call>, i: nat)
    requires OnlineAfterData(calls) && i < |calls| && calls[i] == PublishAvailability(true)
    ensures HasDiscovery(calls[..i]) && HasSnapshot(calls[..i])
    decreases |calls|
  {
    if i < |calls| - 1 {
      OnlineAt(calls[..|calls| - 1], i);
      assert calls[..|calls| - 1][..i] == calls[..i];
    }
  }

  lemma {:induction false} FindDiscovery(calls: seq<Call>) returns (j: nat)
    requires HasDiscovery(calls)
    ensures j < |calls| && calls[j].PublishDiscovery?
  {
    if calls[|calls| - 1].PublishDiscovery? {
      j := |calls| - 1;
    } else {
      j := FindDiscovery(calls[..|calls| - 1]);
    }
  }

  lemma {:induction false} FindSnapshot(calls: seq<Call>) returns (j: nat)
    requires HasSnapshot(calls)
    ensures j < |calls| && calls[j].PublishSnapshot?
  {
    if calls[|calls| - 1].PublishSnapshot? {
      j := |calls| - 1;
    } else {
      j := FindSnapshot(calls[..|calls| - 1]);
    }
  }

  /** Online is announced only after some discovery and some snapshot. */
  lemma OnlineOnlyAfterData(boot: ConnectAnswers, actions: seq<Action>, i: nat) returns (d: nat, p: nat)
    requires var calls := Reach(boot, actions).coordinator.calls;
      i < |calls| && calls[i] == PublishAvailability(true)
    ensures var calls := Reach(boot, actions).coordinator.calls;
      d < i && p < i && calls[d].PublishDiscovery? && calls[p].PublishSnapshot?
  {
    hide Reach, Inv, Cached, Numbered, Counts, ShowsReadback, AllAnswered, FrozenIsOutstanding, OnlineAfterData,
      HasDiscovery, HasSnapshot;
    var calls := Reach(boot, actions).coordinator.calls;
    ReachKeeps(boot, actions);
    OnlineAt(calls, i);
    d := FindDiscovery(calls[..i]);
    p := FindSnapshot(calls[..i]);
  }

  /** Discovery counts as published exactly when all three fragments have been seen. */
  lemma DiscoveryWhenAllKnown(boot: ConnectAnswers, actions: seq<Action>)
    ensures var s := Reach(boot, actions);
      && s.read <= |s.manager.events|
      && (s.coordinator.discoveryPublished <==>
        LatestInfo(Seen(s)).Some? && LatestConfig(Seen(s)).Some? && LatestOperational(Seen(s)).Some?)
      && s.coordinator.jkbmsReconnectCount == Reconnects(ConnectedCount(Seen(s)))
  {
    hide Reach, Inv, Numbered, ShowsReadback, AllAnswered, FrozenIsOutstanding, OnlineAfterData, HasDiscovery,
      HasSnapshot, LatestInfo, LatestConfig, LatestOperational, ConnectedCount;
    ReachKeeps(boot, actions);
  }

  function Discoveries(calls: seq<Call>): nat {
    if calls == [] then 0 else
    Discoveries(calls[..|calls| - 1]) + if calls[|calls| - 1].PublishDiscovery? then 1 else 0
  }

  lemma DiscoveriesMore(calls: seq<Call>, call: Call)
    ensures Discoveries(calls + [call]) == Discoveries(calls) + if call.PublishDiscovery? then 1 else 0
  {
  }

  /** Publishing adds one discovery exactly if device info and configuration are known, or none. */
  lemma PublishDiscovers(c: Coordinator, now: Instant)
    ensures Discoveries(PublishIfBuildable(c, now).calls) == Discoveries(c.calls)
    ensures Discoveries(DiscoverIfKnown(c).calls) ==
      Discoveries(c.calls) + if c.fragments.deviceInfo.Some? && c.fragments.configOptions.Some? then 1 else 0
  {
    hide PublishIfBuildable, DiscoverIfKnown, Discoveries;
    PublishEffect(c, now);
    DiscoverEffect(c);
    var f := c.fragments;
    if PublishIfBuildable(c, now).calls != c.calls {
      var s :| PublishIfBuildable(c, now).calls == c.calls + [PublishSnapshot(s)];
      DiscoveriesMore(c.calls, PublishSnapshot(s));
    }
    if f.deviceInfo.Some? && f.configOptions.Some? {
      DiscoveriesMore(c.calls, PublishDiscovery(f.deviceInfo.value, f.configOptions.value.cellCount));
    }
  }

  /** Consuming an event publishes discovery exactly when it first completes the three fragments. */
  lemma EventDiscovers(c: Coordinator, e: JkBmsEvent, now: Instant)
    ensures var c' := HandleEvent(c, e, now);
      && (c.discoveryPublished ==> c'.discoveryPublished)
      && Discoveries(c'.calls) ==
        Discoveries(c.calls) + if c'.discoveryPublished && !c.discoveryPublished then 1 else 0
  {
    if e.Connection? {
      hide Discoveries;
      DiscoveriesMore(c.calls, PublishAvailability(true));
      DiscoveriesMore(c.calls, PublishAvailability(false));
    } else {
      hide Absorb, PublishIfBuildable, DiscoverIfKnown, Discoveries;
      var c1 := Absorb(c, e, now);
      AbsorbFrame(c, e, now);
      DiscoverEffect(c1);
      var c2 := DiscoverIfKnown(c1).(discoveryPublished := true);
      PublishDiscovers(c1, now);
      PublishDiscovers(c2, now);
      PublishEffect(c1, now);
      PublishEffect(c2, now);
    }
  }

  /** A broker connection republishes discovery exactly if it could subscribe and both parts are known. */
  lemma BrokerDiscovers(c: Coordinator, subscribed: bool, now: Instant)
    ensures var c' := HandleBrokerConnected(c, subscribed, now);
      && c'.discoveryPublished == c.discoveryPublished
      && Discoveries(c'.calls) == Discoveries(c.calls) + if Republishes(c, subscribed) then 1 else 0
  {
    hide PublishIfBuildable, DiscoverIfKnown, Discoveries;
    var c1 := c.(brokerConnected := true);
    var c2 := if c.hadFirstBrokerConnection
      then c1.(mqttReconnectCount := SaturatingIncrement(c1.mqttReconnectCount))
      else c1.(hadFirstBrokerConnection := true);
    var c3 := Called(c2, SubscribeToCommands);
    var c4 := Called(c3, PublishAvailability(c3.jkbmsOnline));
    DiscoveriesMore(c2.calls, SubscribeToCommands);
    DiscoveriesMore(c3.calls, PublishAvailability(c3.jkbmsOnline));
    PublishDiscovers(c4, now);
    DiscoverEffect(c4);
    PublishDiscovers(DiscoverIfKnown(c4), now);
    PublishEffect(DiscoverIfKnown(c4), now);
  }

  predicate Republishes(c: Coordinator, subscribed: bool) {
    subscribed && c.fragments.deviceInfo.Some? && c.fragments.configOptions.Some?
  }

  /** Broker connections of the run that republished discovery. */
  function Republications(boot: ConnectAnswers, actions: seq<Action>): nat {
    if actions == [] then 0 else
    var n := |actions| - 1;
    Republications(boot, actions[..n]) +
    if actions[n].BrokerUp? && Republishes(Reach(boot, actions[..n]).coordinator, actions[n].subscribed) then 1 else 0
  }

  /**
   * The discovery calls of a run: one as soon as the three fragments have been seen, and one for
   * each broker connection that republishes.
   */
  lemma {:induction false} DiscoveriesAreCounted(boot: ConnectAnswers, actions: seq<Action>)
    ensures var c := Reach(boot, actions).coordinator;
      Discoveries(c.calls) == (if c.discoveryPublished then 1 else 0) + Republications(boot, actions)
    decreases |actions|
  {
    hide Act, HandleEvent, HandleBrokerConnected, Republishes, OnConnect;
    if actions != [] {
      var n := |actions| - 1;
      var s := Reach(boot, actions[..n]);
      DiscoveriesAreCounted(boot, actions[..n]);
      ActDiscovers(s, actions[n]);
    }
  }

  lemma ActDiscovers(s: State, a: Action)
    ensures var c := s.coordinator; var c' := Act(s, a).coordinator;
      && (c.discoveryPublished ==> c'.discoveryPublished)
      && Discoveries(c'.calls) == Discoveries(c.calls)
        + (if c'.discoveryPublished && !c.discoveryPublished then 1 else 0)
        + (if a.BrokerUp? && Republishes(c, a.subscribed) then 1 else 0)
  {
    hide Step, HandleEvent, HandleBrokerConnected, Discoveries, Republishes;
    match a
    case ReadEvent(now) =>
      if s.read < |s.manager.events| {
        EventDiscovers(s.coordinator, s.manager.events[s.read].event, now);
      }
    case BrokerUp(subscribed, now) => BrokerDiscovers(s.coordinator, subscribed, now);
    case _ =>
  }
}
