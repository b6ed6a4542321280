/** Every turn of the composed system keeps its invariant. */
module SystemSteps {
  import opened Wrappers
  import opened JkBmsTypes
  import opened ManagerSpec
  import opened WriteLedger
  import Wakeup = ManagerWakeups
  import opened ManagerWrites
  import opened ManagerLink
  import History = ManagerEscalation
  import opened ManagerRuns
  import opened CoordinatorSpec
  import opened System

  // ---- Publishing ----

  lemma Publish(c: Coordinator, now: Instant)
    requires c.fragments.configOptions.Some? || c.fragments.operational.Some? ==> c.fragments.lastUpdateAt.Some?
    ensures var c' := PublishIfBuildable(c, now);
      && c' == c.(calls := c'.calls)
      && (c.freeze == Freeze(None, None) ==> ShowsReadback(c'))
      && (AllKnown(c.fragments) || HasSnapshot(c.calls) ==> HasSnapshot(c'.calls))
      && (HasDiscovery(c.calls) ==> HasDiscovery(c'.calls))
      && (OnlineAfterData(c.calls) ==> OnlineAfterData(c'.calls))
  {
    if MergeFragments(c.fragments, now).Some? {
      assert PublishIfBuildable(c, now).calls == c.calls + [PublishSnapshot(BuildSnapshot(c, now).value)];
    }
  }

  lemma Discover(c: Coordinator)
    ensures var c' := DiscoverIfKnown(c);
      && c' == c.(calls := c'.calls)
      && LastSnapshot(c'.calls) == LastSnapshot(c.calls)
      && (AllKnown(c.fragments) || HasDiscovery(c.calls) ==> HasDiscovery(c'.calls))
      && (OnlineAfterData(c.calls) ==> OnlineAfterData(c'.calls))
  {
  }

  lemma Announce(calls: seq<Call>, call: Call)
    requires !call.PublishSnapshot? && !call.PublishDiscovery?
    requires call == PublishAvailability(true) ==> HasDiscovery(calls) && HasSnapshot(calls)
    ensures LastSnapshot(calls + [call]) == LastSnapshot(calls) && HasDiscovery(calls + [call]) == HasDiscovery(calls)
    ensures OnlineAfterData(calls) ==> OnlineAfterData(calls + [call])
  {
  }

  // ---- What the manager guarantees about the event read next ----

  /** Facts about an event and everything before it in the channel. */
  predicate Deserved(issued: seq<nat>, seen: seq<Stamped>, e: JkBmsEvent) {
    match e
    case Connection(state) => state == Connected ==> JustResynced(seen)
    case Data(_) => true
    case WriteConfirmation(n, _) => n in issued && forall k | k in issued && k < n :: k in Answered(seen)
    case WriteError(n, _) => n in issued
  }

  lemma {:induction false} LogPrefix(ev: seq<Stamped>, i: nat)
    requires i <= |ev|
    ensures AnswerLog(ev[..i]) <= AnswerLog(ev)
    decreases |ev|
  {
    if i == |ev| {
      assert ev[..i] == ev;
    } else {
      LogPrefix(ev[..|ev| - 1], i);
      assert ev[..|ev| - 1][..i] == ev[..i];
    }
  }

  lemma {:induction false} NumbersOf(log: seq<Reply>, i: nat)
    requires i < |log|
    ensures log[i].seqNo in Numbers(log)
  {
    NumberAt(log, i);
  }

  lemma NextInLog(ev: seq<Stamped>, r: nat)
    requires r < |ev| && AnswerIn(ev[r].event) != []
    ensures var log := AnswerLog(ev); var before := AnswerLog(ev[..r]);
      |before| < |log| && before == log[..|before|] && [log[|before|]] == AnswerIn(ev[r].event)
  {
    var next := ev[..r + 1];
    LogPrefix(ev, r + 1);
    assert next[..r] == ev[..r];
    assert AnswerLog(next) == AnswerLog(ev[..r]) + AnswerIn(ev[r].event);
  }

  lemma NextAnswer(s: State)
    requires Inv(s.manager) && s.read < |s.manager.events|
    requires AnswerIn(s.manager.events[s.read].event) != []
    ensures var log := AnswerLog(s.manager.events); var before := AnswerLog(Seen(s));
      && |before| < |log| && before == log[..|before|] && [log[|before|]] == AnswerIn(s.manager.events[s.read].event)
      && log[|before|].seqNo in s.manager.received
  {
    hide Wakeup.Wakeups, Link, History.Escalation, InOrder, QueueDiscipline, WireFresh, WireOrdered, Numbers, AnswerLog;
    var log := AnswerLog(s.manager.events);
    NextInLog(s.manager.events, s.read);
    var i := |AnswerLog(Seen(s))|;
    NumbersOf(log, i);
    KnownIsReceived(s.manager.received, log, Seqs(s.manager.pendingWrites), log[i].seqNo);
  }

  lemma EarlierWasReceived(received: seq<nat>, later: seq<nat>, n: nat, k: nat)
    requires Increasing(received + later) && n in received && k in received + later && k < n
    ensures k in received
  {
    var all := received + later;
    var i :| 0 <= i < |received| && received[i] == n;
    var j :| 0 <= j < |all| && all[j] == k;
    assert all[i] == n;
  }

  lemma IncreasingPrefix(a: seq<nat>, b: seq<nat>)
    requires Increasing(a + b)
    ensures Increasing(a)
  {
    var all := a + b;
    assert forall i | 0 <= i < |a| :: a[i] == all[i];
  }

  lemma ManagerDeserves(s: State)
    requires SystemInv(s) && s.read < |s.manager.events|
    ensures Deserved(Issued(s), Seen(s), s.manager.events[s.read].event)
  {
    hide Coherent, Wakeup.Wakeups, History.Escalation, Grammar, AnswerLog, Numbers, Increasing, JustResynced;
    var ev := s.manager.events;
    LegalAt(ev, s.read);
    match ev[s.read].event
    case Connection(_) =>
    case Data(_) =>
    case WriteConfirmation(n, _) =>
      NextAnswer(s);
      var log := AnswerLog(ev);
      IncreasingIssued(s);
      IncreasingPrefix(s.manager.received, ChannelSeqs(s.channel));
      assert AnsweredBelow(s.manager.received, log);
      forall k | k in Issued(s) && k < n ensures k in Answered(Seen(s)) {
        EarlierWasReceived(s.manager.received, ChannelSeqs(s.channel), n, k);
      }
    case WriteError(n, _) =>
      NextAnswer(s);
  }

  lemma IncreasingIssued(s: State)
    requires s.read <= |s.manager.events| && Coherent(Issued(s), Seen(s), s.coordinator)
    ensures Increasing(Issued(s))
  {
  }

  // ---- Reading an event ----

  lemma ReadCache(seen: seq<Stamped>, e: Stamped, f: Fragments, now: Instant)
    requires Cached(seen, f)
    ensures Cached(seen + [e],
      match e.event
      case Data(d) => SetData(f, d, now)
      case WriteConfirmation(_, readback) => SetData(f, Config(readback), now)
      case _ => f)
  {
  }

  /** One more event seen: at most one more answer. */
  lemma SeenAnswers(seen: seq<Stamped>, e: Stamped, k: nat)
    ensures k in Answered(seen + [e]) <==> k in Answered(seen) || (exists a :: AnswerIn(e.event) == [a] && a.seqNo == k)
  {
    var ev := seen + [e];
    assert ev[..|ev| - 1] == seen;
    match e.event
    case WriteConfirmation(n, _) =>
      assert AnswerLog(ev) == AnswerLog(seen) + [Done(n)];
      assert AnswerIn(e.event) == [Done(n)];
    case WriteError(n, cause) =>
      assert AnswerLog(ev) == AnswerLog(seen) + [Failed(n, cause)];
      assert AnswerIn(e.event) == [Failed(n, cause)];
    case _ =>
      assert AnswerLog(ev) == AnswerLog(seen);
  }

  lemma ReadNumbers(issued: seq<nat>, seen: seq<Stamped>, e: Stamped, nextSeq: nat)
    requires Numbered(issued, seen, nextSeq) && Deserved(issued, seen, e.event)
    ensures Numbered(issued, seen + [e], nextSeq)
  {
    hide Answered, Increasing;
    forall k | k in Answered(seen + [e]) ensures k in issued {
      SeenAnswers(seen, e, k);
    }
  }

  /**
   * Consuming a confirmation clears exactly the freeze of that write: no older one is left, so
   * the test for newer-or-equal amounts to equality.
   */
  lemma ApplyIsExact(issued: seq<nat>, seen: seq<Stamped>, e: JkBmsEvent, f: Freeze)
    requires FrozenIsOutstanding(issued, seen, f) && Deserved(issued, seen, e) && e.WriteConfirmation?
    ensures forall k: nat | IsFrozen(f, k) :: k >= e.seqNo
    ensures Apply(f, e.seqNo) == Clear(f, e.seqNo)
  {
    hide Answered;
    forall k: nat | IsFrozen(f, k) ensures k >= e.seqNo {
      assert k in issued && k !in Answered(seen);
    }
    assert f.charging.Some? ==> IsFrozen(f, f.charging.value.seqNo);
    assert f.balancing.Some? ==> IsFrozen(f, f.balancing.value.seqNo);
  }

  lemma ReadFreeze(issued: seq<nat>, seen: seq<Stamped>, e: Stamped, c: Coordinator, now: Instant)
    requires FrozenIsOutstanding(issued, seen, c.freeze) && Deserved(issued, seen, e.event)
    ensures FrozenIsOutstanding(issued, seen + [e], Absorb(c, e.event, now).freeze)
  {
    hide Answered, Apply;
    if e.event.WriteConfirmation? {
      ApplyIsExact(issued, seen, e.event, c.freeze);
    }
    forall k: nat | IsFrozen(Absorb(c, e.event, now).freeze, k) ensures k in issued && k !in Answered(seen + [e]) {
      assert IsFrozen(c.freeze, k);
      SeenAnswers(seen, e, k);
    }
  }

  lemma NothingFrozen(issued: seq<nat>, seen: seq<Stamped>, f: Freeze)
    requires FrozenIsOutstanding(issued, seen, f) && AllAnswered(issued, seen)
    ensures f == Freeze(None, None)
  {
    hide Answered;
    assert f.charging.Some? ==> IsFrozen(f, f.charging.value.seqNo);
    assert f.balancing.Some? ==> IsFrozen(f, f.balancing.value.seqNo);
  }

  lemma {:induction false} ResyncIsKnown(seen: seq<Stamped>)
    requires JustResynced(seen)
    ensures LatestInfo(seen).Some? && LatestConfig(seen).Some? && LatestOperational(seen).Some?
  {
    var one := seen[..|seen| - 1];
    var two := one[..|one| - 1];
    assert two == seen[..|seen| - 2];
    assert LatestConfig(one).Some? && LatestInfo(two).Some?;
  }

  lemma ReadConnection(issued: seq<nat>, seen: seq<Stamped>, e: Stamped, c: Coordinator, now: Instant)
    requires Coherent(issued, seen, c) && Deserved(issued, seen, e.event) && e.event.Connection?
    ensures Coherent(issued, seen + [e], HandleEvent(c, e.event, now))
  {
    hide Answered, Increasing, LastSnapshot, HasDiscovery, OnlineAfterData, JustResynced, Deserved, LatestInfo,
      LatestConfig, LatestOperational;
    ReadCache(seen, e, c.fragments, now);
    ReadNumbers(issued, seen, e, c.nextSeq);
    ReadFreeze(issued, seen, e, c, now);
    AllAnsweredBefore(issued, seen, e);
    if e.event.state == Connected {
      DeservedResync(issued, seen, e.event);
      ResyncIsKnown(seen);
      Announce(c.calls, PublishAvailability(true));
    } else {
      Announce(c.calls, PublishAvailability(false));
    }
  }

  lemma DeservedResync(issued: seq<nat>, seen: seq<Stamped>, e: JkBmsEvent)
    requires Deserved(issued, seen, e) && e == Connection(Connected)
    ensures JustResynced(seen)
  {
  }

  lemma AllAnsweredBefore(issued: seq<nat>, seen: seq<Stamped>, e: Stamped)
    requires AnswerIn(e.event) == []
    ensures AllAnswered(issued, seen + [e]) ==> AllAnswered(issued, seen)
  {
    hide Answered;
    if AllAnswered(issued, seen + [e]) {
      forall k | k in issued ensures k in Answered(seen) {
        SeenAnswers(seen, e, k);
      }
    }
  }

  /** The tail of the handler: discovery once everything is known, then a snapshot. */
  lemma ReadTail(c: Coordinator, c1: Coordinator, now: Instant)
    requires c1 == c.(fragments := c1.fragments, freeze := c1.freeze) && Announced(c)
    requires AllKnown(c.fragments) ==> AllKnown(c1.fragments)
    requires c1.fragments.configOptions.Some? || c1.fragments.operational.Some? ==> c1.fragments.lastUpdateAt.Some?
    ensures
      var c2 :=
        if !c1.discoveryPublished && AllKnown(c1.fragments) && !AllKnown(c.fragments)
        then DiscoverIfKnown(c1).(discoveryPublished := true) else c1;
      var c3 := PublishIfBuildable(c2, now);
      && c3 == c1.(discoveryPublished := c3.discoveryPublished, calls := c3.calls)
      && Announced(c3) && (c1.freeze == Freeze(None, None) ==> ShowsReadback(c3))
  {
    hide PublishIfBuildable, DiscoverIfKnown, LastSnapshot, HasDiscovery, OnlineAfterData;
    Discover(c1);
    var c2 :=
      if !c1.discoveryPublished && AllKnown(c1.fragments) && !AllKnown(c.fragments)
      then DiscoverIfKnown(c1).(discoveryPublished := true) else c1;
    Publish(c2, now);
  }

  lemma AbsorbEffect(seen: seq<Stamped>, e: Stamped, c: Coordinator, now: Instant)
    requires !e.event.Connection? && Counts(seen, c)
    ensures var c1 := Absorb(c, e.event, now);
      && c1 == c.(fragments := c1.fragments, freeze := c1.freeze) && Counts(seen + [e], c1)
      && (AllKnown(c.fragments) ==> AllKnown(c1.fragments))
  {
    hide ConnectedCount, Absorb, AllKnown;
    AbsorbFrame(c, e.event, now);
    AbsorbKnows(c, e.event, now);
    NotAConnection(seen, e);
  }

  lemma AbsorbKnows(c: Coordinator, e: JkBmsEvent, now: Instant)
    ensures AllKnown(c.fragments) ==> AllKnown(Absorb(c, e, now).fragments)
  {
    hide Apply, Clear;
  }

  lemma NotAConnection(seen: seq<Stamped>, e: Stamped)
    requires !e.event.Connection?
    ensures ConnectedCount(seen + [e]) == ConnectedCount(seen)
  {
  }

  lemma ReadData(issued: seq<nat>, seen: seq<Stamped>, e: Stamped, c: Coordinator, now: Instant)
    requires Coherent(issued, seen, c) && Deserved(issued, seen, e.event) && !e.event.Connection?
    ensures Coherent(issued, seen + [e], HandleEvent(c, e.event, now))
  {
    hide ShowsReadback, Announced, SetData, PublishIfBuildable, DiscoverIfKnown, LastSnapshot, HasDiscovery,
      OnlineAfterData, Answered, Increasing, LatestInfo, LatestConfig, LatestOperational, Apply, Clear, AllAnswered,
      Deserved, Numbered, FrozenIsOutstanding, ConnectedCount, AllKnown;
    ReadCache(seen, e, c.fragments, now);
    ReadNumbers(issued, seen, e, c.nextSeq);
    ReadFreeze(issued, seen, e, c, now);
    AbsorbEffect(seen, e, c, now);
    var c1 := Absorb(c, e.event, now);
    ReadTail(c, c1, now);
    if AllAnswered(issued, seen + [e]) {
      NothingFrozen(issued, seen + [e], c1.freeze);
    }
  }

  // ---- Requests and broker events ----

  lemma AcceptedRequest(issued: seq<nat>, seen: seq<Stamped>, c: Coordinator, req: IncomingRequest)
    requires Coherent(issued, seen, c)
    ensures Coherent(issued + [c.nextSeq + 1], seen, HandleIncoming(c, req, true))
  {
    hide Answered, Increasing, Cached, Announced, Counts, ShowsReadback;
    var n := c.nextSeq + 1;
    IncreasingAppend(issued, n);
    assert n in issued + [n] && n !in Answered(seen);
    var f := HandleIncoming(c, req, true).freeze;
    forall k: nat | IsFrozen(f, k) ensures k in issued + [n] && k !in Answered(seen) {
      assert k == n || IsFrozen(c.freeze, k);
    }
    AnnouncedCalls(c, HandleIncoming(c, req, true));
  }

  lemma AnnouncedCalls(c: Coordinator, c': Coordinator)
    requires Announced(c) && c' == c.(nextSeq := c'.nextSeq, writes := c'.writes, freeze := c'.freeze)
    ensures Announced(c') && ShowsReadback(c') == ShowsReadback(c)
    ensures forall seen :: Counts(seen, c') == Counts(seen, c)
  {
  }

  lemma RefusedRequest(issued: seq<nat>, seen: seq<Stamped>, c: Coordinator, req: IncomingRequest)
    requires Coherent(issued, seen, c)
    ensures Coherent(issued, seen, HandleIncoming(c, req, false))
  {
    hide Answered, Increasing, Cached, Announced, Counts, ShowsReadback;
    var f := HandleIncoming(c, req, false).freeze;
    forall k: nat | IsFrozen(f, k) ensures k in issued && k !in Answered(seen) {
      assert IsFrozen(c.freeze, k);
    }
    AnnouncedCalls(c, HandleIncoming(c, req, false));
  }

  lemma BrokerCalls(c: Coordinator, subscribed: bool, now: Instant)
    requires Announced(c)
    requires c.fragments.configOptions.Some? || c.fragments.operational.Some? ==> c.fragments.lastUpdateAt.Some?
    ensures var c' := HandleBrokerConnected(c, subscribed, now);
      && c' == c.(brokerConnected := true, mqttReconnectCount := c'.mqttReconnectCount,
          hadFirstBrokerConnection := true, calls := c'.calls)
      && Announced(c') && (c.freeze == Freeze(None, None) && ShowsReadback(c) ==> ShowsReadback(c'))
  {
    hide PublishIfBuildable, DiscoverIfKnown, LastSnapshot, HasDiscovery, OnlineAfterData;
    Announce(c.calls, SubscribeToCommands);
    var calls := c.calls + [SubscribeToCommands];
    Announce(calls, PublishAvailability(c.jkbmsOnline));
    var c1 := c.(brokerConnected := true);
    var c2 := if c.hadFirstBrokerConnection
      then c1.(mqttReconnectCount := SaturatingIncrement(c1.mqttReconnectCount))
      else c1.(hadFirstBrokerConnection := true);
    var c3 := Called(Called(c2, SubscribeToCommands), PublishAvailability(c.jkbmsOnline));
    Discover(c3);
    Publish(DiscoverIfKnown(c3), now);
  }

  lemma BrokerKeeps(issued: seq<nat>, seen: seq<Stamped>, c: Coordinator, subscribed: bool, now: Instant)
    requires Coherent(issued, seen, c)
    ensures Coherent(issued, seen, HandleBrokerConnected(c, subscribed, now))
    ensures Coherent(issued, seen, HandleBrokerDisconnected(c))
  {
    hide HandleBrokerConnected, Answered, Increasing, Announced, ShowsReadback, Numbered, FrozenIsOutstanding,
      AllAnswered;
    BrokerCalls(c, subscribed, now);
    if AllAnswered(issued, seen) {
      NothingFrozen(issued, seen, c.freeze);
    }
    assert Announced(HandleBrokerDisconnected(c)) && ShowsReadback(HandleBrokerDisconnected(c)) == ShowsReadback(c) by {
      SameCalls(c);
    }
  }

  lemma SameCalls(c: Coordinator)
    requires Announced(c)
    ensures Announced(HandleBrokerDisconnected(c)) && ShowsReadback(HandleBrokerDisconnected(c)) == ShowsReadback(c)
  {
  }

  // ---- Turns ----

  lemma SerialKeeps(s: State, input: Input)
    requires SystemInv(s) && !input.Command?
    ensures SystemInv(Act(s, Serial(input)))
  {
    hide Coherent, Inv, Step;
    StepKeeps(s.manager, input);
    StepGrows(s.manager, input);
    assert Seen(Act(s, Serial(input))) == Seen(s);
  }

  lemma DeliverKeeps(s: State, write: WriteAnswers)
    requires SystemInv(s) && s.channel != []
    ensures SystemInv(Act(s, Deliver(write)))
  {
    hide Coherent, Inv, Step;
    var input := Command(s.channel[0].command, s.channel[0].seqNo, write);
    StepKeeps(s.manager, input);
    StepGrows(s.manager, input);
    var s' := Act(s, Deliver(write));
    assert Seen(s') == Seen(s);
    assert Issued(s') == Issued(s);
  }

  lemma ReadKeeps(s: State, now: Instant)
    requires SystemInv(s) && s.read < |s.manager.events|
    ensures SystemInv(Act(s, ReadEvent(now)))
  {
    hide Coherent, Inv, HandleEvent;
    var e := s.manager.events[s.read];
    ManagerDeserves(s);
    if e.event.Connection? {
      ReadConnection(Issued(s), Seen(s), e, s.coordinator, now);
    } else {
      ReadData(Issued(s), Seen(s), e, s.coordinator, now);
    }
    assert Seen(Act(s, ReadEvent(now))) == Seen(s) + [e];
  }

  lemma {:induction false} ChannelAppend(channel: seq<QueuedCommand>, q: QueuedCommand)
    ensures ChannelSeqs(channel + [q]) == ChannelSeqs(channel) + [q.seqNo]
  {
    if channel != [] {
      ChannelAppend(channel[1..], q);
      assert (channel + [q])[1..] == channel[1..] + [q];
    }
  }

  lemma RequestKeeps(s: State, req: IncomingRequest, room: bool)
    requires SystemInv(s)
    ensures SystemInv(Act(s, Request(req, room)))
  {
    hide Coherent, Inv, HandleIncoming;
    var s' := Act(s, Request(req, room));
    var q := QueuedCommand(CommandOf(req), s.coordinator.nextSeq + 1);
    OneOffer(s, req, room);
    if Accepts(s, room) {
      AcceptedRequest(Issued(s), Seen(s), s.coordinator, req);
      ChannelAppend(s.channel, q);
      assert Issued(s') == Issued(s) + [q.seqNo];
    } else {
      RefusedRequest(Issued(s), Seen(s), s.coordinator, req);
      assert s'.channel == s.channel;
    }
  }

  /** Every turn of either actor, every request and every broker event. */
  lemma ActKeeps(s: State, a: Action)
    requires SystemInv(s)
    ensures SystemInv(Act(s, a))
  {
    hide SystemInv;
    match a
    case Serial(input) => if !input.Command? { SerialKeeps(s, input); }
    case Deliver(write) => if s.channel != [] { DeliverKeeps(s, write); }
    case ReadEvent(now) => if s.read < |s.manager.events| { ReadKeeps(s, now); }
    case Request(req, room) => RequestKeeps(s, req, room);
    case BrokerUp(subscribed, now) => BrokerUpKeeps(s, subscribed, now);
    case BrokerDown => BrokerUpKeeps(s, false, 0);
  }

  lemma BrokerUpKeeps(s: State, subscribed: bool, now: Instant)
    requires SystemInv(s)
    ensures SystemInv(Act(s, BrokerUp(subscribed, now))) && SystemInv(Act(s, BrokerDown))
  {
    hide Coherent, Inv, HandleBrokerConnected, HandleBrokerDisconnected;
    BrokerKeeps(Issued(s), Seen(s), s.coordinator, subscribed, now);
    assert Seen(Act(s, BrokerUp(subscribed, now))) == Seen(s) && Seen(Act(s, BrokerDown)) == Seen(s);
  }

  lemma StartIsCoherent(c: Coordinator)
    requires c.fragments == Fragments(None, None, None, None, None) && c.freeze == Freeze(None, None)
    requires c.calls == [] && !c.jkbmsOnline && !c.discoveryPublished
    requires !c.hadFirstConnection && c.jkbmsReconnectCount == 0
    ensures Coherent([], [], c)
  {
  }

  lemma StartKeeps(boot: ConnectAnswers)
    ensures SystemInv(Start(boot))
  {
    hide OnConnect, Inv, Coherent;
    BootKeeps(NEW_MANAGER, boot);
    ConnectGrows(NEW_MANAGER, boot);
    StartIsCoherent(NEW_COORDINATOR);
    assert Seen(Start(boot)) == [] && Issued(Start(boot)) == [];
  }

  /** Every reachable state of the composed system. */
  lemma {:induction false} ReachKeeps(boot: ConnectAnswers, actions: seq<Action>)
    ensures SystemInv(Reach(boot, actions))
    decreases |actions|
  {
    hide SystemInv, Act, Start;
    if actions == [] {
      StartKeeps(boot);
    } else {
      ReachKeeps(boot, actions[..|actions| - 1]);
      ActKeeps(Reach(boot, actions[..|actions| - 1]), actions[|actions| - 1]);
    }
  }
}
