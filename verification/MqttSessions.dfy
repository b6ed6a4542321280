/**
 * The MQTT session loop (src/mqtt/connection_manager.rs).  What the event loop's polls return, when,
 * and how the dispatch side of a session ends are arbitrary; a script that runs dry is a run seen up
 * to that point.
 */
module MqttSpec {
  import opened Wrappers
  import opened JkBmsTypes
  import opened CoordinatorSpec

  const INITIAL_BACKOFF: nat := 2 * SECOND
  const MAX_BACKOFF: nat := 30 * SECOND
  const STABLE_THRESHOLD: nat := MAX_BACKOFF

  datatype SessionOutcome = HandleDropped | Disconnected

  datatype MqttEvent = BrokerConnected | BrokerDisconnected | Incoming(request: IncomingRequest)

  /** A publish carries a request if it parses; `delivered` says whether anyone still listens. */
  datatype Packet = ConnAck | Publish(request: Option<IncomingRequest>, delivered: bool) | Disconnect | Other

  datatype Poll = Received(packet: Packet, took: nat) | PollFailed(took: nat)

  datatype EventLoop = EventLoop(
    now: Instant, connectedAt: Option<Instant>, events: seq<MqttEvent>, outcome: Option<SessionOutcome>)

  function OnPacket(l: EventLoop, p: Packet): EventLoop {
    match p
    case ConnAck => l.(connectedAt := Some(l.now), events := l.events + [BrokerConnected])
    case Publish(request, delivered) =>
      if request.None? then l
      else if delivered then l.(events := l.events + [Incoming(request.value)])
      else l.(outcome := Some(HandleDropped))
    case Disconnect => l.(outcome := Some(SessionOutcome.Disconnected))
    case Other => l
  }

  function OnPoll(l: EventLoop, p: Poll): EventLoop {
    if l.outcome.Some? then l else
    var l1 := l.(now := l.now + p.took);
    match p
    case Received(packet, _) => OnPacket(l1, packet)
    case PollFailed(_) => l1.(outcome := Some(SessionOutcome.Disconnected))
  }

  function AfterPolls(l: EventLoop, polls: seq<Poll>): EventLoop {
    if polls == [] then l else OnPoll(AfterPolls(l, polls[..|polls| - 1]), polls[|polls| - 1])
  }

  function Started(now: Instant): EventLoop {
    EventLoop(now, None, [], None)
  }

  /** If the dispatch side ends first, its outcome counts and the event loop is told to stop. */
  datatype Session = Session(polls: seq<Poll>, dispatch: Option<SessionOutcome>, closing: nat, overslept: nat)

  datatype Ended = Ended(
    outcome: SessionOutcome, running: bool, connected: bool, stable: bool, events: seq<MqttEvent>,
    began: Instant, now: Instant, connAcks: nat)

  predicate EndsLoop(p: Poll) {
    p.PollFailed? || p.packet.Disconnect? || (p.packet.Publish? && p.packet.request.Some? && !p.packet.delivered)
  }

  predicate LoopEnds(polls: seq<Poll>) {
    polls != [] && (LoopEnds(polls[..|polls| - 1]) || EndsLoop(polls[|polls| - 1]))
  }

  /** How many times the broker accepts the connection before a poll ends the loop; MQTT allows one. */
  function ConnAcks(polls: seq<Poll>): nat {
    if polls == [] then 0 else
    var before := polls[..|polls| - 1];
    var last := polls[|polls| - 1];
    ConnAcks(before) + if !LoopEnds(before) && last.Received? && last.packet.ConnAck? then 1 else 0
  }

  function EndOf(began: Instant, l: EventLoop, s: Session): Ended {
    var now := l.now + s.closing;
    var outcome :=
      if s.dispatch.Some? then s.dispatch.value
      else if l.outcome.Some? then l.outcome.value
      else HandleDropped;
    var connected := l.connectedAt.Some?;
    Ended(
      outcome,
      s.dispatch.None? && l.outcome.None?,
      connected,
      connected && now >= l.connectedAt.value + STABLE_THRESHOLD,
      l.events + if connected && outcome.Disconnected? then [BrokerDisconnected] else [],
      began,
      now,
      ConnAcks(s.polls))
  }

  function RunSession(now: Instant, s: Session): Ended {
    EndOf(now, AfterPolls(Started(now), s.polls), s)
  }

  datatype Log = Log(sessionId: nat, now: Instant, events: seq<MqttEvent>, sessions: seq<Ended>, sleeps: seq<nat>)

  datatype Loop = Loop(log: Log, backoff: nat, done: bool)

  function AfterOneSession(log: Log, s: Session): Log {
    var e := RunSession(log.now, s);
    log.(sessionId := log.sessionId + 1, now := e.now, events := log.events + e.events, sessions := log.sessions + [e])
  }

  function NextBackoff(backoff: nat, stable: bool): nat {
    if stable then INITIAL_BACKOFF else if 2 * backoff < MAX_BACKOFF then 2 * backoff else MAX_BACKOFF
  }

  function OnSession(m: Loop, s: Session): Loop {
    if m.done then m else
    var log := AfterOneSession(m.log, s);
    var e := RunSession(m.log.now, s);
    if e.outcome.HandleDropped? then m.(log := log, done := true) else
    var backoff := NextBackoff(m.backoff, e.stable);
    Loop(log.(now := log.now + backoff + s.overslept, sleeps := log.sleeps + [backoff]), backoff, false)
  }

  function AfterSessions(m: Loop, sessions: seq<Session>): Loop {
    if sessions == [] then m else OnSession(AfterSessions(m, sessions[..|sessions| - 1]), sessions[|sessions| - 1])
  }

  const NEW_LOOP := Loop(Log(0, 0, [], [], []), INITIAL_BACKOFF, false)

  function WholeRun(sessions: seq<Session>): Loop {
    AfterSessions(NEW_LOOP, sessions)
  }
}

/** What any run of sessions keeps. */
module MqttRuns {
  import opened Wrappers
  import opened JkBmsTypes
  import opened CoordinatorSpec
  import opened MqttSpec

  /** The link events, true for connected. */
  function Links(events: seq<MqttEvent>): seq<bool> {
    if events == [] then [] else
    var before := Links(events[..|events| - 1]);
    match events[|events| - 1]
    case BrokerConnected => before + [true]
    case BrokerDisconnected => before + [false]
    case Incoming(_) => before
  }

  /** Connected, disconnected, connected and so on. */
  predicate Alternates(links: seq<bool>) {
    forall i | 0 <= i < |links| :: links[i] == (i % 2 == 0)
  }

  lemma {:induction false} LinksJoin(a: seq<MqttEvent>, b: seq<MqttEvent>)
    ensures Links(a + b) == Links(a) + Links(b)
  {
    if b == [] {
      assert a + b == a;
    } else {
      LinksJoin(a, b[..|b| - 1]);
      assert (a + b)[..|a + b| - 1] == a + b[..|b| - 1];
    }
  }

  function Count(links: seq<bool>): nat {
    if links == [] then 0 else Count(links[..|links| - 1]) + if links[|links| - 1] then 1 else 0
  }

  function Times(n: nat): (links: seq<bool>)
    ensures |links| == n
  {
    if n == 0 then [] else Times(n - 1) + [true]
  }

  lemma {:induction false} TimesCount(n: nat)
    ensures Count(Times(n)) == n && (forall i | 0 <= i < n :: Times(n)[i])
  {
    if n > 0 {
      TimesCount(n - 1);
      assert Times(n)[..n - 1] == Times(n - 1);
    }
  }

  /** The event loop reports each CONNACK, and nothing else, as a connection. */
  lemma {:induction false} LoopLinks(now: Instant, polls: seq<Poll>)
    ensures var l := AfterPolls(Started(now), polls);
      && Links(l.events) == Times(ConnAcks(polls))
      && (l.connectedAt.Some? <==> ConnAcks(polls) > 0)
      && (l.outcome.Some? <==> LoopEnds(polls))
  {
    hide OnPoll, Links;
    if polls == [] {
      LinksOfNone();
    } else {
      LoopLinks(now, polls[..|polls| - 1]);
      PollLinks(AfterPolls(Started(now), polls[..|polls| - 1]), polls[|polls| - 1]);
    }
  }

  lemma LinksOfNone()
    ensures Links([]) == []
  {
  }

  lemma PollLinks(l: EventLoop, p: Poll)
    ensures var l' := OnPoll(l, p);
      var accepted := l.outcome.None? && p.Received? && p.packet.ConnAck?;
      && Links(l'.events) == (if accepted then Links(l.events) + [true] else Links(l.events))
      && (l'.connectedAt.Some? <==> l.connectedAt.Some? || accepted)
      && (l'.outcome.Some? <==> l.outcome.Some? || EndsLoop(p))
  {
    var l' := OnPoll(l, p);
    if l'.events != l.events {
      assert l'.events[..|l'.events| - 1] == l.events;
    }
  }

  /** A session's link events: its CONNACKs, then a disconnection if it was connected and lost. */
  lemma SessionLinks(now: Instant, s: Session)
    ensures var e := RunSession(now, s);
      && Links(e.events) == Times(e.connAcks) + (if e.connected && e.outcome.Disconnected? then [false] else [])
      && (e.connected <==> e.connAcks > 0)
      && e.connAcks == ConnAcks(s.polls)
      && (e.running ==> e.outcome.HandleDropped?)
  {
    LoopLinks(now, s.polls);
    var l := AfterPolls(Started(now), s.polls);
    var e := RunSession(now, s);
    if e.connected && e.outcome.Disconnected? {
      assert e.events[..|e.events| - 1] == l.events;
    } else {
      assert e.events == l.events;
      assert Times(e.connAcks) + [] == Times(e.connAcks);
    }
  }

  ghost predicate OneConnAckEach(sessions: seq<Ended>) {
    forall k | 0 <= k < |sessions| :: sessions[k].connAcks <= 1
  }

  ghost predicate Bracketed(m: Loop) {
    var links := Links(m.log.events);
    && (m.done <==> StillRunning(m.log.sessions) || LastTold(m.log.sessions))
    && (Alternates(links) <==> OneConnAckEach(m.log.sessions))
    && (Alternates(links) ==> (|links| % 2 == 1 <==> m.done && LastConnected(m.log.sessions)))
    && (Alternates(links) ==> Count(links) == ConnectedSessions(m.log.sessions))
  }

  predicate LastConnected(sessions: seq<Ended>) {
    sessions != [] && sessions[|sessions| - 1].connected
  }

  predicate StillRunning(sessions: seq<Ended>) {
    sessions != [] && sessions[|sessions| - 1].running
  }

  /** The last session ended because it was told to, not because its link was lost. */
  predicate LastTold(sessions: seq<Ended>) {
    sessions != [] && sessions[|sessions| - 1].outcome.HandleDropped? && !sessions[|sessions| - 1].running
  }

  function ConnectedSessions(sessions: seq<Ended>): nat {
    if sessions == [] then 0 else
    ConnectedSessions(sessions[..|sessions| - 1]) + if sessions[|sessions| - 1].connected then 1 else 0
  }

  lemma CountJoin(a: seq<bool>, x: bool)
    ensures Count(a + [x]) == Count(a) + if x then 1 else 0
  {
    assert (a + [x])[..|a|] == a;
  }

  lemma SmallTimes()
    ensures Times(0) == [] && Times(1) == [true]
  {
  }

  /** One session's link events extend an alternating log exactly when it had one CONNACK at most. */
  lemma Extends(links: seq<bool>, n: nat, closed: bool)
    requires |links| % 2 == 0
    requires closed ==> n > 0
    ensures var l := links + Times(n) + (if closed then [false] else []);
      && (Alternates(l) <==> Alternates(links) && n <= 1)
      && (Alternates(l) ==> (|l| % 2 == 1 <==> n > 0 && !closed) && Count(l) == Count(links) + n)
  {
    hide Alternates, Times, Count;
    var end := if closed then [false] else [];
    var l := links + Times(n) + end;
    SmallTimes();
    if n >= 2 {
      TimesCount(n);
      assert l[|links| + 1];
      NeedsParity(l, |links| + 1);
    } else if n == 1 {
      OneMoreLink(links, true);
      CountJoin(links, true);
      if closed {
        OneMoreLink(links + [true], false);
        CountJoin(links + [true], false);
      } else {
        assert l == links + [true];
      }
    } else {
      assert l == links;
    }
  }

  lemma NeedsParity(links: seq<bool>, i: nat)
    requires i < |links| && links[i] != (i % 2 == 0)
    ensures !Alternates(links)
  {
  }

  lemma OneMoreLink(links: seq<bool>, x: bool)
    ensures Alternates(links + [x]) <==> Alternates(links) && x == (|links| % 2 == 0)
  {
    var more := links + [x];
    assert more[|links|] == x;
    if Alternates(more) {
      NotAlternatingForever(links, [x]);
    }
  }

  lemma NotAlternatingForever(links: seq<bool>, more: seq<bool>)
    requires Alternates(links + more)
    ensures Alternates(links)
  {
    forall i | 0 <= i < |links| ensures links[i] == (i % 2 == 0) {
      assert (links + more)[i] == links[i];
    }
  }

  lemma SessionKeepsBrackets(m: Loop, s: Session)
    requires Bracketed(m)
    ensures Bracketed(OnSession(m, s))
  {
    hide RunSession, Alternates, Links, Count, Times;
    if !m.done {
      var e := RunSession(m.log.now, s);
      var m' := OnSession(m, s);
      var links := Links(m.log.events);
      var links' := Links(m'.log.events);
      var closed := e.connected && e.outcome.Disconnected?;
      LinksJoin(m.log.events, e.events);
      SessionLinks(m.log.now, s);
      assert m'.log.sessions == m.log.sessions + [e];
      assert m'.log.sessions[..|m.log.sessions|] == m.log.sessions;
      assert links' == links + (Times(e.connAcks) + (if closed then [false] else []));
      assert links' == links + Times(e.connAcks) + (if closed then [false] else []);
      OneMore(m.log.sessions, e);
      if Alternates(links) {
        Extends(links, e.connAcks, closed);
      } else if Alternates(links') {
        NotAlternatingForever(links, Times(e.connAcks) + (if closed then [false] else []));
      }
    }
  }

  lemma OneMore(sessions: seq<Ended>, e: Ended)
    ensures OneConnAckEach(sessions + [e]) <==> OneConnAckEach(sessions) && e.connAcks <= 1
  {
    var more := sessions + [e];
    assert more[|sessions|] == e;
    assert forall k | 0 <= k < |sessions| :: more[k] == sessions[k];
  }

  /** Over any run, the broker events alternate exactly when no session saw a second CONNACK. */
  lemma {:induction false} EventsAlternate(sessions: seq<Session>)
    ensures var m := WholeRun(sessions);
      && (Alternates(Links(m.log.events)) <==> OneConnAckEach(m.log.sessions))
      && Bracketed(m)
  {
    if sessions != [] {
      EventsAlternate(sessions[..|sessions| - 1]);
      SessionKeepsBrackets(WholeRun(sessions[..|sessions| - 1]), sessions[|sessions| - 1]);
    }
  }

  lemma OneSession(m: Loop, s: Session)
    ensures AfterSessions(m, [s]) == OnSession(m, s)
  {
    assert [s][..0] == [];
  }

  lemma TwoPolls(l: EventLoop, p: Poll, q: Poll)
    ensures AfterPolls(l, [p, q]) == OnPoll(OnPoll(l, p), q)
  {
    assert [p, q][..1] == [p] && [p][..0] == [];
    assert AfterPolls(l, [p]) == OnPoll(l, p);
  }

  lemma TwoConnections()
    ensures !Alternates(Links([BrokerConnected, BrokerConnected]))
  {
    var one := [BrokerConnected];
    assert one[..0] == [] && Links(one) == [true];
    LinksJoin(one, one);
    assert Links(one + one)[1];
  }

  /** One session with two CONNACKs is a failing run: it reports two connections in a row. */
  lemma SecondConnAckRepeats(took: nat)
    ensures var ack := Received(ConnAck, took);
      var m := WholeRun([Session([ack, ack], None, 0, 0)]);
      m.log.events == [BrokerConnected, BrokerConnected] && !Alternates(Links(m.log.events))
  {
    hide AfterPolls, AfterSessions, Links, Alternates;
    var ack := Received(ConnAck, took);
    OneSession(NEW_LOOP, Session([ack, ack], None, 0, 0));
    TwoPolls(Started(0), ack, ack);
    TwoConnections();
  }

  // ---- What a session reports and how it ends, told from the polls alone ----

  predicate Requests(p: Poll) {
    p.Received? && p.packet.Publish? && p.packet.request.Some? && p.packet.delivered
  }

  /** The requests received, as long as the loop went on, that somebody listened for. */
  function Requested(polls: seq<Poll>): seq<IncomingRequest> {
    if polls == [] then [] else
    var before, last := polls[..|polls| - 1], polls[|polls| - 1];
    Requested(before) + if !LoopEnds(before) && Requests(last) then [last.packet.request.value] else []
  }

  /** A request nobody listens for ends the loop as told to stop; a disconnect or an error, as lost. */
  function LoopOutcome(polls: seq<Poll>): Option<SessionOutcome> {
    if polls == [] then None else
    var before, last := polls[..|polls| - 1], polls[|polls| - 1];
    if LoopOutcome(before).Some? then LoopOutcome(before)
    else if !EndsLoop(last) then None
    else Some(if last.Received? && last.packet.Publish? then HandleDropped else SessionOutcome.Disconnected)
  }

  /** How long ago the last CONNACK was when the loop ended. */
  function SinceConnAck(polls: seq<Poll>): Option<nat> {
    if polls == [] then None else
    var before, last := polls[..|polls| - 1], polls[|polls| - 1];
    if LoopEnds(before) then SinceConnAck(before)
    else if last.Received? && last.packet.ConnAck? then Some(0)
    else if SinceConnAck(before).Some? then Some(SinceConnAck(before).value + last.took)
    else None
  }

  /** How long the loop went on. */
  function Lasted(polls: seq<Poll>): nat {
    if polls == [] then 0 else
    var before := polls[..|polls| - 1];
    Lasted(before) + if LoopEnds(before) then 0 else polls[|polls| - 1].took
  }

  /** The requests among the events. */
  function Incomings(events: seq<MqttEvent>): seq<IncomingRequest> {
    if events == [] then [] else
    var last := events[|events| - 1];
    Incomings(events[..|events| - 1]) + if last.Incoming? then [last.request] else []
  }

  lemma {:induction false} IncomingsJoin(a: seq<MqttEvent>, b: seq<MqttEvent>)
    ensures Incomings(a + b) == Incomings(a) + Incomings(b)
  {
    if b == [] {
      assert a + b == a;
    } else {
      IncomingsJoin(a, b[..|b| - 1]);
      assert (a + b)[..|a + b| - 1] == a + b[..|b| - 1];
    }
  }

  ghost predicate LoopIsTold(l: EventLoop, began: Instant, polls: seq<Poll>) {
    LoopReports(l, polls) && LoopTimes(l, began, polls)
  }

  predicate LoopReports(l: EventLoop, polls: seq<Poll>) {
    Incomings(l.events) == Requested(polls) && l.outcome == LoopOutcome(polls) && (l.outcome.Some? <==> LoopEnds(polls))
  }

  predicate LoopTimes(l: EventLoop, began: Instant, polls: seq<Poll>) {
    && (l.outcome.Some? <==> LoopEnds(polls))
    && l.now == began + Lasted(polls)
    && (l.connectedAt.Some? <==> SinceConnAck(polls).Some?)
    && (l.connectedAt.Some? ==> l.now == l.connectedAt.value + SinceConnAck(polls).value)
  }

  lemma IncomingsAppend(events: seq<MqttEvent>, e: MqttEvent)
    ensures Incomings(events + [e]) == Incomings(events) + if e.Incoming? then [e.request] else []
  {
  }

  /** What one more poll adds to each account. */
  lemma OneMorePoll(polls: seq<Poll>, p: Poll)
    ensures var more := polls + [p];
      && Requested(more) ==
        Requested(polls) + (if !LoopEnds(polls) && Requests(p) then [p.packet.request.value] else [])
      && (LoopEnds(more) <==> LoopEnds(polls) || EndsLoop(p))
      && LoopOutcome(more) ==
        (if LoopOutcome(polls).Some? then LoopOutcome(polls)
         else if !EndsLoop(p) then None
         else Some(if p.Received? && p.packet.Publish? then HandleDropped else SessionOutcome.Disconnected))
      && Lasted(more) == Lasted(polls) + (if LoopEnds(polls) then 0 else p.took)
      && SinceConnAck(more) ==
        (if LoopEnds(polls) then SinceConnAck(polls)
         else if p.Received? && p.packet.ConnAck? then Some(0)
         else if SinceConnAck(polls).Some? then Some(SinceConnAck(polls).value + p.took)
         else None)
  {
    var more := polls + [p];
    assert more[..|more| - 1] == polls && more[|more| - 1] == p;
  }

  lemma PollReports(l: EventLoop, polls: seq<Poll>, p: Poll)
    requires LoopReports(l, polls)
    ensures LoopReports(OnPoll(l, p), polls + [p])
  {
    hide Incomings, Requested, LoopOutcome, LoopEnds;
    OneMorePoll(polls, p);
    if p.Received? && p.packet.Publish? && p.packet.request.Some? {
      IncomingsAppend(l.events, Incoming(p.packet.request.value));
    }
    IncomingsAppend(l.events, BrokerConnected);
    assert Requested(polls) + [] == Requested(polls);
  }

  lemma PollTimes(l: EventLoop, began: Instant, polls: seq<Poll>, p: Poll)
    requires LoopTimes(l, began, polls)
    ensures LoopTimes(OnPoll(l, p), began, polls + [p])
  {
    hide LoopEnds, Lasted, SinceConnAck, Requested, LoopOutcome;
    OneMorePoll(polls, p);
  }

  lemma PollIsTold(l: EventLoop, began: Instant, polls: seq<Poll>, p: Poll)
    requires LoopIsTold(l, began, polls)
    ensures LoopIsTold(OnPoll(l, p), began, polls + [p])
  {
    hide LoopReports, LoopTimes, OnPoll;
    PollReports(l, polls, p);
    PollTimes(l, began, polls, p);
  }

  lemma {:induction false} LoopTold(began: Instant, polls: seq<Poll>)
    ensures LoopIsTold(AfterPolls(Started(began), polls), began, polls)
  {
    hide LoopIsTold, OnPoll;
    if polls == [] {
      NothingTold(began);
    } else {
      var before := polls[..|polls| - 1];
      LoopTold(began, before);
      PollIsTold(AfterPolls(Started(began), before), began, before, polls[|polls| - 1]);
      assert before + [polls[|polls| - 1]] == polls;
    }
  }

  lemma NothingTold(began: Instant)
    ensures LoopIsTold(Started(began), began, [])
  {
  }

  /** What a session amounts to, by its script alone. */
  predicate SessionIsTold(e: Ended, s: Session) {
    && Incomings(e.events) == Requested(s.polls)
    && e.outcome == (if s.dispatch.Some? then s.dispatch.value
        else if LoopOutcome(s.polls).Some? then LoopOutcome(s.polls).value
        else HandleDropped)
    && (e.running <==> s.dispatch.None? && LoopOutcome(s.polls).None?)
    && (e.stable <==> SinceConnAck(s.polls).Some? && SinceConnAck(s.polls).value + s.closing >= 30 * SECOND)
    && e.now == e.began + Lasted(s.polls) + s.closing
  }

  /**
   * A session reports, in order, exactly the requests it received while its loop went on; it ends as
   * its dispatch side did if that came first; and it counts as stable exactly if it ended thirty
   * seconds or more after its last CONNACK.
   */
  lemma SessionTold(began: Instant, s: Session)
    ensures SessionIsTold(RunSession(began, s), s) && RunSession(began, s).began == began
  {
    hide Incomings, Requested, LoopOutcome, SinceConnAck, Lasted, LoopEnds, AfterPolls;
    LoopTold(began, s.polls);
    var l := AfterPolls(Started(began), s.polls);
    IncomingsJoin(l.events, [BrokerDisconnected]);
    OneDisconnect();
    assert l.events + [] == l.events;
  }

  lemma OneDisconnect()
    ensures Incomings([BrokerDisconnected]) == []
  {
    var one := [BrokerDisconnected];
    assert one[..0] == [];
  }

  function AllRequested(sessions: seq<Session>): seq<IncomingRequest> {
    if sessions == [] then []
    else AllRequested(sessions[..|sessions| - 1]) + Requested(sessions[|sessions| - 1].polls)
  }

  /** When the session after the first `k` begins. */
  function BeginsAt(log: Log, script: seq<Session>, k: nat): Instant
    requires k <= |log.sessions| && k <= |script|
  {
    if k == 0 then 0
    else log.sessions[k - 1].now + (if k - 1 < |log.sleeps| then log.sleeps[k - 1] + script[k - 1].overslept else 0)
  }

  /** The run goes on until a session is told to stop. */
  ghost predicate GoesOn(m: Loop, script: seq<Session>) {
    var n := |m.log.sessions|;
    && n <= |script| && |m.log.sleeps| == (if m.done then n - 1 else n)
    && (if m.done then n > 0 && m.log.sessions[n - 1].outcome.HandleDropped? else n == |script|)
    && (forall k | 0 <= k < |m.log.sleeps| :: m.log.sessions[k].outcome.Disconnected?)
  }

  /** Each session is that of the script, and begins when the one before has been slept off. */
  ghost predicate InTurn(m: Loop, script: seq<Session>) {
    && GoesOn(m, script)
    && (forall k | 0 <= k < |m.log.sessions| :: SessionIsTold(m.log.sessions[k], script[k]))
    && (forall k | 0 <= k < |m.log.sessions| :: m.log.sessions[k].began == BeginsAt(m.log, script, k))
    && (!m.done ==> m.log.now == BeginsAt(m.log, script, |script|))
  }

  ghost predicate RunIsTold(m: Loop, script: seq<Session>) {
    InTurn(m, script) && Incomings(m.log.events) == AllRequested(script[..|m.log.sessions|])
  }

  lemma StillGoesOn(m: Loop, script: seq<Session>, s: Session)
    requires GoesOn(m, script)
    ensures GoesOn(OnSession(m, s), script + [s])
  {
    hide RunSession;
  }

  lemma StillInTurn(m: Loop, script: seq<Session>, s: Session)
    requires InTurn(m, script)
    ensures InTurn(OnSession(m, s), script + [s])
  {
    hide RunSession, SessionIsTold, BeginsAt, GoesOn;
    StillGoesOn(m, script, s);
    var more, m' := script + [s], OnSession(m, s);
    Counted(m, script);
    Counted(m', more);
    SessionTold(m.log.now, s);
    if !m.done {
      NextBegins(m, script, s);
    }
    forall k | 0 <= k < |m'.log.sessions|
      ensures SessionIsTold(m'.log.sessions[k], more[k]) && m'.log.sessions[k].began == BeginsAt(m'.log, more, k)
    {
      if k < |m.log.sessions| {
        assert m'.log.sessions[k] == m.log.sessions[k] && more[k] == script[k];
        SameBeginning(m.log, m'.log, script, more, k);
      } else {
        SameBeginning(m.log, m'.log, script, more, k);
      }
    }
  }

  lemma Counted(m: Loop, script: seq<Session>)
    requires GoesOn(m, script)
    ensures |m.log.sessions| <= |script| && |m.log.sleeps| == |m.log.sessions| - (if m.done then 1 else 0)
    ensures !m.done ==> |m.log.sessions| == |script|
  {
  }

  lemma NextBegins(m: Loop, script: seq<Session>, s: Session)
    requires GoesOn(m, script) && !m.done
    ensures var m' := OnSession(m, s);
      m'.done || (|m'.log.sessions| == |script| + 1 == |m'.log.sleeps|
        && m'.log.now == BeginsAt(m'.log, script + [s], |script| + 1))
  {
    hide RunSession;
  }

  lemma SessionKeepsTold(m: Loop, script: seq<Session>, s: Session)
    requires RunIsTold(m, script)
    ensures RunIsTold(OnSession(m, s), script + [s])
  {
    hide RunSession, Incomings, Requested, AllRequested, InTurn;
    var more, n := script + [s], |m.log.sessions|;
    StillInTurn(m, script, s);
    Whole(m, script);
    if m.done {
      assert more[..n] == script[..n];
    } else {
      SessionEnds(m.log.now, s);
      IncomingsJoin(m.log.events, RunSession(m.log.now, s).events);
      assert script[..n] == script && more[..n + 1] == more;
      MoreRequested(script, s);
    }
  }

  lemma Whole(m: Loop, script: seq<Session>)
    requires InTurn(m, script)
    ensures |m.log.sessions| <= |script| && (!m.done ==> |m.log.sessions| == |script|)
  {
  }

  lemma SessionEnds(began: Instant, s: Session)
    ensures var e := RunSession(began, s); Incomings(e.events) == Requested(s.polls) && e.began == began
  {
    hide RunSession, Incomings, Requested;
    SessionTold(began, s);
  }

  lemma MoreRequested(script: seq<Session>, s: Session)
    ensures AllRequested(script + [s]) == AllRequested(script) + Requested(s.polls)
  {
    assert (script + [s])[..|script|] == script;
  }

  lemma SameBeginning(log: Log, log': Log, script: seq<Session>, more: seq<Session>, k: nat)
    requires k <= |log.sessions| && k <= |log.sleeps| && k <= |script|
    requires log.sessions <= log'.sessions && log.sleeps <= log'.sleeps && script <= more
    ensures BeginsAt(log', more, k) == BeginsAt(log, script, k)
  {
  }

  /**
   * Over any run, every request received in a session before its loop ended is reported, once and in
   * order, and nothing else is; each session begins when the one before has been slept off; and the
   * run goes on until a session is told to stop.
   */
  lemma {:induction false} RunTold(script: seq<Session>)
    ensures RunIsTold(WholeRun(script), script)
  {
    hide RunIsTold, OnSession;
    if script == [] {
      EmptyRunTold(NEW_LOOP);
    } else {
      var before := script[..|script| - 1];
      RunTold(before);
      SessionKeepsTold(WholeRun(before), before, script[|script| - 1]);
      assert before + [script[|script| - 1]] == script;
    }
  }

  lemma EmptyRunTold(m: Loop)
    requires m.log.sessions == [] && m.log.sleeps == [] && m.log.events == [] && m.log.now == 0 && !m.done
    ensures RunIsTold(m, [])
  {
  }

  // ---- Backoff ----

  /** Unstable sessions since the last stable one, or since the start. */
  function Unstable(sessions: seq<Ended>): nat {
    if sessions == [] || sessions[|sessions| - 1].stable then 0 else Unstable(sessions[..|sessions| - 1]) + 1
  }

  function Power(j: nat): (p: nat)
    ensures p > j
  {
    if j == 0 then 1 else 2 * Power(j - 1)
  }

  function SleepAfter(j: nat): nat {
    if 2 * Power(j) < 30 then 2 * Power(j) * SECOND else 30 * SECOND
  }

  ghost predicate Backoffs(m: Loop) {
    && (!m.done ==> m.backoff == SleepAfter(Unstable(m.log.sessions)))
    && |m.log.sessions| == |m.log.sleeps| + (if m.done then 1 else 0)
    && m.log.sessionId == |m.log.sessions|
    && forall i | 0 <= i < |m.log.sleeps| :: m.log.sleeps[i] == SleepAfter(Unstable(m.log.sessions[..i + 1]))
  }

  lemma SessionKeepsBackoffs(m: Loop, s: Session)
    requires Backoffs(m)
    ensures Backoffs(OnSession(m, s))
  {
    hide RunSession;
    if !m.done {
      var e := RunSession(m.log.now, s);
      var m' := OnSession(m, s);
      assert m'.log.sessions[..|m.log.sessions|] == m.log.sessions;
      forall i | 0 <= i < |m.log.sleeps|
        ensures m'.log.sleeps[i] == SleepAfter(Unstable(m'.log.sessions[..i + 1]))
      {
        assert m'.log.sessions[..i + 1] == m.log.sessions[..i + 1];
      }
      assert m'.log.sessions[..|m'.log.sessions|] == m'.log.sessions;
    }
  }

  /** The sleep after j unstable sessions in a row is min(2 * 2^j, 30) seconds; j is 0 right after a stable one. */
  lemma {:induction false} SleepsFollowTheStreak(sessions: seq<Session>)
    ensures Backoffs(WholeRun(sessions))
  {
    if sessions != [] {
      SleepsFollowTheStreak(sessions[..|sessions| - 1]);
      SessionKeepsBackoffs(WholeRun(sessions[..|sessions| - 1]), sessions[|sessions| - 1]);
    }
  }

  // ---- The coordinator's side ----

  /** What the coordinator handles, in order: broker events and events of the serial side. */
  datatype Handled =
    | Mqtt(event: MqttEvent, subscribed: bool, accepted: bool, now: Instant)
    | Serial(jkbms: JkBmsEvent, at: Instant)

  function Handle(c: Coordinator, h: Handled): Coordinator {
    match h
    case Mqtt(BrokerConnected, subscribed, _, now) => HandleBrokerConnected(c, subscribed, now)
    case Mqtt(BrokerDisconnected, _, _, _) => HandleBrokerDisconnected(c)
    case Mqtt(Incoming(req), _, accepted, _) => HandleIncoming(c, req, accepted)
    case Serial(e, at) => HandleEvent(c, e, at)
  }

  function AfterAll(hs: seq<Handled>): Coordinator {
    if hs == [] then NEW_COORDINATOR else Handle(AfterAll(hs[..|hs| - 1]), hs[|hs| - 1])
  }

  function BrokerEvents(hs: seq<Handled>): seq<MqttEvent> {
    if hs == [] then [] else
    BrokerEvents(hs[..|hs| - 1]) + if hs[|hs| - 1].Mqtt? then [hs[|hs| - 1].event] else []
  }

  lemma {:induction false} BrokerCounters(hs: seq<Handled>)
    ensures var c := AfterAll(hs);
      var links := Links(BrokerEvents(hs));
      && (c.hadFirstBrokerConnection <==> Count(links) > 0)
      && c.mqttReconnectCount == Reconnects(Count(links))
      && c.brokerConnected == (links != [] && links[|links| - 1])
  {
    hide HandleEvent, HandleIncoming, DiscoverIfKnown, PublishIfBuildable;
    if hs != [] {
      BrokerCounters(hs[..|hs| - 1]);
      var c := AfterAll(hs[..|hs| - 1]);
      var before := BrokerEvents(hs[..|hs| - 1]);
      match hs[|hs| - 1]
      case Serial(e, at) => {
        SerialLeavesBrokerAlone(c, e, at);
        assert BrokerEvents(hs) == before;
      }
      case Mqtt(event, subscribed, accepted, now) => {
        var events := BrokerEvents(hs);
        assert events == before + [event];
        assert events[..|events| - 1] == before;
        match event
        case BrokerConnected =>
          ConnectedCounts(c, subscribed, now);
          CountJoin(Links(before), true);
        case BrokerDisconnected => CountJoin(Links(before), false);
        case Incoming(req) => IncomingLeavesBrokerAlone(c, req, accepted);
      }
    }
  }

  predicate SameBroker(c: Coordinator, c': Coordinator) {
    && c'.hadFirstBrokerConnection == c.hadFirstBrokerConnection
    && c'.mqttReconnectCount == c.mqttReconnectCount
    && c'.brokerConnected == c.brokerConnected
  }

  lemma SerialLeavesBrokerAlone(c: Coordinator, e: JkBmsEvent, at: Instant)
    ensures SameBroker(c, HandleEvent(c, e, at))
  {
    if !e.Connection? {
      hide HandleEvent;
      HandleEventFrame(c, e, at);
    }
  }

  lemma IncomingLeavesBrokerAlone(c: Coordinator, req: IncomingRequest, accepted: bool)
    ensures SameBroker(c, HandleIncoming(c, req, accepted))
  {
  }

  lemma ConnectedCounts(c: Coordinator, subscribed: bool, now: Instant)
    ensures var c' := HandleBrokerConnected(c, subscribed, now);
      && c'.hadFirstBrokerConnection && c'.brokerConnected
      && c'.mqttReconnectCount ==
        (if c.hadFirstBrokerConnection then SaturatingIncrement(c.mqttReconnectCount) else c.mqttReconnectCount)
  {
    hide BuildSnapshot;
  }

  /**
   * A coordinator that has handled every event of a run, mixed with anything from the serial side,
   * counts the connected sessions after the first.  Its broker flag is up exactly when the last
   * session connected and is still running or was told to stop; a lost one leaves it down.
   */
  lemma CoordinatorCountsSessions(sessions: seq<Session>, hs: seq<Handled>)
    requires BrokerEvents(hs) == WholeRun(sessions).log.events
    requires OneConnAckEach(WholeRun(sessions).log.sessions)
    ensures var c := AfterAll(hs);
      var m := WholeRun(sessions);
      && c.mqttReconnectCount == Reconnects(ConnectedSessions(m.log.sessions))
      && (c.brokerConnected <==>
        LastConnected(m.log.sessions) && (StillRunning(m.log.sessions) || LastTold(m.log.sessions)))
  {
    hide AfterAll, WholeRun, Links, Count;
    EventsAlternate(sessions);
    SleepsFollowTheStreak(sessions);
    BrokerCounters(hs);
  }
}

/** The manager itself. */
module MqttConnectionManagers {
  import opened Wrappers
  import opened JkBmsTypes
  import opened CoordinatorSpec
  import opened MqttSpec

  class MqttConnectionManager {
    var sessionId: nat
    var now: Instant
    ghost var events: seq<MqttEvent>
    ghost var sessions: seq<Ended>
    ghost var sleeps: seq<nat>

    constructor ()
      ensures Model() == NEW_LOOP.log
    {
      sessionId, now, events, sessions, sleeps := 0, 0, [], [], [];
    }

    ghost function Model(): Log
      reads this
    {
      Log(sessionId, now, events, sessions, sleeps)
    }

    /** The whole run: the log grows as the session loop says, from the initial backoff. */
    method Run(script: seq<Session>)
      modifies this
      ensures Model() == AfterSessions(Loop(old(Model()), INITIAL_BACKOFF, false), script).log
    {
      hide RunSession;
      var backoff := INITIAL_BACKOFF;
      ghost var start := Loop(Model(), backoff, false);
      var i := 0;
      while i < |script|
        invariant i <= |script|
        invariant Loop(Model(), backoff, false) == AfterSessions(start, script[..i])
      {
        assert script[..i + 1][..i] == script[..i];
        var outcome, stable := RunNewSession(script[i]);
        i := i + 1;
        if outcome.HandleDropped? {
          DoneStays(start, script, i);
          return;
        }
        backoff := NextBackoff(backoff, stable);
        sleeps := sleeps + [backoff];
        now := now + backoff + script[i - 1].overslept;
      }
      assert script[..i] == script;
    }

    method RunNewSession(s: Session) returns (outcome: SessionOutcome, stable: bool)
      modifies this
      ensures Model() == AfterOneSession(old(Model()), s)
      ensures var e := RunSession(old(now), s); outcome == e.outcome && stable == e.stable
    {
      sessionId := sessionId + 1;
      ghost var e := RunSession(now, s);
      var pollOutcome, connectedAt := RunEventloop(s.polls);
      now := now + s.closing;
      outcome := if s.dispatch.Some? then s.dispatch.value else pollOutcome;
      if connectedAt.Some? && outcome.Disconnected? {
        events := events + [BrokerDisconnected];
      }
      stable := connectedAt.Some? && now - connectedAt.value >= STABLE_THRESHOLD;
      sessions := sessions + [e];
    }

    /** Runs until a poll ends it, or until it is told to stop. */
    method RunEventloop(polls: seq<Poll>) returns (outcome: SessionOutcome, connectedAt: Option<Instant>)
      modifies this`now, this`events
      ensures var l := AfterPolls(Started(old(now)), polls);
        && now == l.now && events == old(events) + l.events && connectedAt == l.connectedAt
        && outcome == (if l.outcome.Some? then l.outcome.value else HandleDropped)
        && (connectedAt.Some? ==> connectedAt.value <= now)
    {
      connectedAt := None;
      var i := 0;
      ghost var l := Started(now);
      assert events + [] == events;
      while i < |polls|
        invariant i <= |polls|
        invariant l == AfterPolls(Started(old(now)), polls[..i]) == EventLoop(now, connectedAt, l.events, None)
        invariant events == old(events) + l.events
        invariant connectedAt.Some? ==> connectedAt.value <= now
      {
        assert polls[..i + 1][..i] == polls[..i];
        var p := polls[i];
        l := OnPoll(l, p);
        i := i + 1;
        now := now + p.took;
        match p {
          case Received(ConnAck, _) =>
            connectedAt := Some(now);
            events := events + [BrokerConnected];
          case Received(Publish(request, delivered), _) =>
            if request.Some? {
              if !delivered {
                LoopOver(Started(old(now)), polls, i);
                return HandleDropped, connectedAt;
              }
              events := events + [Incoming(request.value)];
            }
          case Received(Disconnect, _) =>
            LoopOver(Started(old(now)), polls, i);
            return SessionOutcome.Disconnected, connectedAt;
          case Received(Other, _) =>
          case PollFailed(_) =>
            LoopOver(Started(old(now)), polls, i);
            return SessionOutcome.Disconnected, connectedAt;
        }
      }
      assert polls[..i] == polls;
      outcome := HandleDropped;
    }
  }

  lemma {:induction false} LoopOver(l: EventLoop, polls: seq<Poll>, i: nat)
    requires i <= |polls| && AfterPolls(l, polls[..i]).outcome.Some?
    ensures AfterPolls(l, polls) == AfterPolls(l, polls[..i])
  {
    if i < |polls| {
      assert polls[..|polls| - 1][..i] == polls[..i];
      LoopOver(l, polls[..|polls| - 1], i);
    } else {
      assert polls[..i] == polls;
    }
  }

  lemma {:induction false} DoneStays(m: Loop, script: seq<Session>, i: nat)
    requires i <= |script| && AfterSessions(m, script[..i]).done
    ensures AfterSessions(m, script) == AfterSessions(m, script[..i])
  {
    if i < |script| {
      assert script[..|script| - 1][..i] == script[..i];
      DoneStays(m, script[..|script| - 1], i);
    } else {
      assert script[..i] == script;
    }
  }
}
