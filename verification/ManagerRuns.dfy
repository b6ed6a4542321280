/** The manager over whole runs: the invariant of every reachable state, and what it means. */
module ManagerRuns {
  import opened Wrappers
  import opened JkBmsTypes
  import opened ManagerSpec
  import opened WriteLedger
  import Wakeup = ManagerWakeups
  import opened ManagerWrites
  import opened ManagerLink
  import opened ManagerEscalation
  import Line = ManagerTalks

  predicate Inv(m: Manager) {
    Wakeup.Wakeups(m) && Writes(m) && Link(m) && Escalation(m) && Line.Talking(m)
  }

  lemma StepKeeps(m: Manager, input: Input)
    requires Inv(m)
    ensures Inv(Step(m, input))
  {
    hide Step, Wakeup.Wakeups, Writes, Link, Escalation, Line.Talking;
    Wakeup.StepWakes(m, input);
    StepWrites(m, input);
    StepLink(m, input);
    StepEscalation(m, input);
    Line.StepTalks(m, input);
  }

  lemma BootKeeps(m: Manager, boot: ConnectAnswers)
    requires m.internalQueue == [] && m.delayQueue == [] && m.events == [] && m.marks == []
    requires m.received == [] && m.pendingWrites == [] && m.wire == []
    requires !m.transport && !m.dataPollingScheduled && !m.retryWritesScheduled
    requires m.reconnectAttempt == 0 && m.consecutiveFailures == 0 && m.talks == [] && m.lastOperational == None
    ensures Inv(OnConnect(m, boot))
  {
    hide OnConnect, Wakeup.Wakeups, Writes, Link, Escalation, Line.Talking;
    Wakeup.BootWakes(m, boot);
    BootWrites(m, boot);
    BootLink(m, boot);
    BootEscalation(m, boot);
    Line.BootTalks(m, boot);
  }

  /** Every reachable state, between any two handlers. */
  lemma {:induction false} RunKeeps(boot: ConnectAnswers, inputs: seq<Input>)
    ensures Inv(Run(boot, inputs))
    decreases |inputs|
  {
    hide OnConnect, Step, Inv;
    if inputs == [] {
      BootKeeps(NEW_MANAGER, boot);
    } else {
      RunKeeps(boot, inputs[..|inputs| - 1]);
      StepKeeps(Run(boot, inputs[..|inputs| - 1]), inputs[|inputs| - 1]);
    }
  }

  // ---- The channel and the histories only grow ----

  /** Write `n` succeeded in the `i`-th talk, and the next talk read the configuration back. */
  predicate ReadBack(talks: seq<Talk>, i: nat, n: nat, readback: ConfigOptions) {
    && i + 1 < |talks|
    && talks[i].Switching? && talks[i].seqNo == n && talks[i].answer.Ok?
    && talks[i + 1].Asking? && talks[i + 1].poll.ConfigAnswer?
    && talks[i + 1].poll.config.Ok? && talks[i + 1].poll.config.value == readback
  }

  /** The `i`-th talk was a poll that got `d`. */
  predicate GotData(talks: seq<Talk>, i: nat, d: JkBmsData) {
    i < |talks| && talks[i].Asking? && talks[i].poll.Result().Ok? && talks[i].poll.Result().value == d
  }

  /**
   * Data is what some poll got; a confirmation answers a write handed over at least the settle time
   * before, with the configuration read back right after it.
   */
  ghost predicate Backed(e: Stamped, wire: seq<WireWrite>, talks: seq<Talk>) {
    match e.event
    case Data(d) => exists i: nat :: GotData(talks, i, d)
    case WriteConfirmation(n, readback) =>
      && (exists w | w in wire :: w.seqNo == n && w.at + 300 * MILLISECOND <= e.at)
      && (exists i: nat :: ReadBack(talks, i, n, readback))
    case _ => true
  }

  ghost predicate Grows(m: Manager, m': Manager) {
    && m.events <= m'.events && m.wire <= m'.wire && m.talks <= m'.talks && m'.received == m.received
    && forall i | |m.events| <= i < |m'.events| :: Backed(m'.events[i], m'.wire, m'.talks)
  }

  lemma GrowsOn(a: Manager, b: Manager, c: Manager)
    requires Grows(a, b) && Grows(b, c)
    ensures Grows(a, c)
  {
    hide Backed;
    forall i | |a.events| <= i < |c.events| ensures Backed(c.events[i], c.wire, c.talks) {
      if i < |b.events| {
        assert b.events[i] == c.events[i];
        StillBacked(b.events[i], b, c);
      }
    }
  }

  lemma DisconnectGrows(m: Manager)
    ensures Grows(m, ScheduleReconnect(m)) && Grows(m, HandleDisconnect(m))
  {
  }

  lemma PollDataGrows(m: Manager, a: Polled)
    ensures Grows(m, PollData(m, a).0)
  {
    hide PollData;
    var (m', e) := PollData(m, a);
    PollDataEffect(m, a);
    if e.None? {
      assert GotData(m'.talks, |m.talks|, a.Result().value);
    }
  }

  lemma PollGrows(m: Manager, due: bool, a: Polled)
    ensures Grows(m, PollIfDue(m, due, a).0)
  {
    hide HandleDisconnect, PollData, Backed;
    var (m1, e) := PollData(m, a);
    PollDataGrows(m, a);
    DisconnectGrows(Note(m1, Hard));
    GrowsOn(m, Note(m1, Hard), HandleDisconnect(Note(m1, Hard)));
    DisconnectGrows(CountSoftFailure(m1));
    GrowsOn(m, CountSoftFailure(m1), HandleDisconnect(CountSoftFailure(m1)));
  }

  lemma ResyncGrows(m: Manager, a: ConnectAnswers)
    ensures Grows(m, Resync(m, a).0)
  {
    hide PollData, Grows;
    var (m1, e1) := PollData(m, InfoAnswer(a.info));
    PollDataGrows(m, InfoAnswer(a.info));
    var (m2, e2) := PollData(m1, ConfigAnswer(a.config));
    PollDataGrows(m1, ConfigAnswer(a.config));
    GrowsOn(m, m1, m2);
    PollDataGrows(m2, OperationalAnswer(a.operational));
    GrowsOn(m, m2, PollData(m2, OperationalAnswer(a.operational)).0);
  }

  lemma ResyncedGrows(m: Manager)
    ensures Grows(m, OnResynced(m))
  {
  }

  lemma ConnectGrows(m: Manager, a: ConnectAnswers)
    ensures Grows(m, OnConnect(m, a))
  {
    hide HandleDisconnect, Resync, ScheduleReconnect, OnResynced, Backed;
    if !m.transport && a.open.Ok? {
      var m1 := OnOpened(m, a.open.took);
      var m2 := Resync(m1, a).0;
      ResyncGrows(m1, a);
      GrowsOn(m, m1, m2);
      DisconnectGrows(m2);
      GrowsOn(m, m2, HandleDisconnect(m2));
      ResyncedGrows(m2);
      GrowsOn(m, m2, OnResynced(m2));
    } else {
      DisconnectGrows(Wait(m, a.open.took));
    }
  }

  lemma PollingGrows(m: Manager, a: PollAnswers)
    ensures Grows(m, OnRunDataPolling(m, a))
  {
    hide PollIfDue, Backed;
    var m0 := m.(dataPollingScheduled := false);
    var d1 := Due(m0.lastDeviceInfo, DEVICE_INFO_POLL_INTERVAL, m0.now);
    var (m1, ok1) := PollIfDue(m0, d1, InfoAnswer(a.info));
    PollGrows(m0, d1, InfoAnswer(a.info));
    var d2 := Due(m1.lastConfig, CONFIG_POLL_INTERVAL, m0.now);
    var (m2, ok2) := PollIfDue(m1, d2, ConfigAnswer(a.config));
    PollGrows(m1, d2, ConfigAnswer(a.config));
    GrowsOn(m0, m1, m2);
    var d3 := Due(m2.lastOperational, OPERATIONAL_POLL_INTERVAL, m0.now);
    var (m3, ok3) := PollIfDue(m2, d3, OperationalAnswer(a.operational));
    PollGrows(m2, d3, OperationalAnswer(a.operational));
    GrowsOn(m0, m2, m3);
    var d4 := Due(m3.lastAlarms, ALARM_POLL_INTERVAL, m0.now);
    PollGrows(m3, d4, AlarmsAnswer(a.alarms));
    GrowsOn(m0, m3, PollIfDue(m3, d4, AlarmsAnswer(a.alarms)).0);
  }

  lemma WriteErrorGrows(m: Manager, e: JkBmsError)
    ensures Grows(m, HandleWriteError(m, e))
  {
    hide HandleDisconnect;
    DisconnectGrows(Note(m, Hard));
    DisconnectGrows(CountSoftFailure(m));
  }

  lemma DoWriteGrows(m: Manager, w: PendingWrite, a: WriteAnswers)
    ensures Grows(m, DoWrite(m, w, a).0)
  {
    var (m', e) := DoWrite(m, w, a);
    if e.None? {
      assert ReadBack(m'.talks, |m.talks|, w.seqNo, a.config.value);
      assert m'.wire[|m.wire|] == WireWrite(m.now, w.command, w.seqNo, w.queuedAt);
    }
  }

  lemma CommandGrows(m: Manager, command: WriteCommand, n: nat, a: WriteAnswers)
    ensures Grows(m.(received := m.received + [n]), OnWriteCommand(m, command, n, a))
  {
    var m0 := m.(received := m.received + [n]);
    RejectionGrows(m0, n);
    hide DoWrite, HandleWriteError, Backed;
    var w := PendingWrite(command, n, m.now);
    DoWriteGrows(m0, w, a);
    var (m1, e) := DoWrite(m0, w, a);
    if e.Some? {
      var m2 := m1.(pendingWrites := m1.pendingWrites + [PendingWrite(command, n, m1.now)]);
      WriteErrorGrows(m2, e.value);
      GrowsOn(m0, m2, HandleWriteError(m2, e.value));
    }
  }

  lemma RejectionGrows(m: Manager, n: nat)
    ensures forall cause :: Grows(m, Emit(m, WriteError(n, cause)))
  {
  }

  lemma {:induction false} EvictGrows(m: Manager)
    ensures Grows(m, EvictExpired(m))
    decreases |m.pendingWrites|
  {
    if m.pendingWrites != [] && ExpiredAt(m.pendingWrites[0], m.now) {
      var m1 := m.(pendingWrites := m.pendingWrites[1..]);
      RejectionGrows(m1, m.pendingWrites[0].seqNo);
      hide Backed;
      var m2 := Emit(m1, WriteError(m.pendingWrites[0].seqNo, Expired));
      EvictGrows(m2);
      GrowsOn(m, m2, EvictExpired(m2));
    }
  }

  lemma RetryGrows(m: Manager, a: WriteAnswers)
    ensures Grows(m, OnRetryWrites(m, a))
  {
    hide DoWrite, HandleWriteError, EvictExpired, Backed;
    var m0 := m.(retryWritesScheduled := false);
    EvictGrows(m0);
    var m1 := EvictExpired(m0);
    if m1.pendingWrites != [] {
      DoWriteGrows(m1, m1.pendingWrites[0], a);
      var (m2, e) := DoWrite(m1, m1.pendingWrites[0], a);
      GrowsOn(m0, m1, m2);
      if e.Some? {
        WriteErrorGrows(m2, e.value);
        GrowsOn(m0, m2, HandleWriteError(m2, e.value));
      }
    }
  }

  lemma InternalGrows(m: Manager, c: InternalCommand, a: Answers)
    ensures Grows(m, HandleInternal(m, c, a))
  {
    hide OnConnect, OnRunDataPolling, OnRetryWrites;
    match c
    case Connect => ConnectGrows(m, a.connect);
    case RunDataPolling => PollingGrows(m, a.poll);
    case RetryWrites => RetryGrows(m, a.write);
  }

  /** Nothing emitted is taken back, and only a command adds to what was received. */
  lemma StepGrows(m: Manager, input: Input)
    ensures var m' := Step(m, input);
      && m.events <= m'.events && m.wire <= m'.wire && m.talks <= m'.talks
      && (forall i | |m.events| <= i < |m'.events| :: Backed(m'.events[i], m'.wire, m'.talks))
      && m'.received == if input.Command? then m.received + [input.seqNo] else m.received
  {
    hide OnWriteCommand, HandleInternal, Backed;
    match input
    case Tick(_) =>
    case Command(command, n, write) => CommandGrows(m, command, n, write);
    case Internal(answers) =>
      if m.internalQueue != [] {
        InternalGrows(m.(internalQueue := m.internalQueue[1..]), m.internalQueue[0], answers);
      }
    case Timer(i, answers) =>
      if i < |m.delayQueue| && m.delayQueue[i].due <= m.now {
        InternalGrows(m.(delayQueue := RemoveAt(m.delayQueue, i)), m.delayQueue[i].command, answers);
      }
  }

  // ---- What holds in every run ----

  /** The sequence numbers the run hands to the manager. */
  function Commanded(inputs: seq<Input>): seq<nat> {
    if inputs == [] then [] else
    var last := inputs[|inputs| - 1];
    Commanded(inputs[..|inputs| - 1]) + if last.Command? then [last.seqNo] else []
  }

  lemma {:induction false} ReceivedIsCommanded(boot: ConnectAnswers, inputs: seq<Input>)
    ensures Run(boot, inputs).received == Commanded(inputs)
    decreases |inputs|
  {
    hide OnConnect, Step;
    if inputs == [] {
      ConnectGrows(NEW_MANAGER, boot);
    } else {
      ReceivedIsCommanded(boot, inputs[..|inputs| - 1]);
      StepGrows(Run(boot, inputs[..|inputs| - 1]), inputs[|inputs| - 1]);
    }
  }

  function Confirmed(ev: seq<Stamped>): multiset<nat> {
    if ev == [] then multiset{} else
    var e := ev[|ev| - 1].event;
    Confirmed(ev[..|ev| - 1]) + if e.WriteConfirmation? then multiset{e.seqNo} else multiset{}
  }

  function Errored(ev: seq<Stamped>): multiset<nat> {
    if ev == [] then multiset{} else
    var e := ev[|ev| - 1].event;
    Errored(ev[..|ev| - 1]) + if e.WriteError? then multiset{e.seqNo} else multiset{}
  }

  lemma NumbersAppend(log: seq<Reply>, a: Reply)
    ensures multiset(Numbers(log + [a])) == multiset(Numbers(log)) + multiset{a.seqNo}
  {
  }

  lemma {:induction false} AnswersSplit(ev: seq<Stamped>)
    ensures multiset(Numbers(AnswerLog(ev))) == Confirmed(ev) + Errored(ev)
  {
    hide Numbers;
    if ev == [] {
      assert Numbers(AnswerLog(ev)) == [] by { NoNumbers(); }
    } else {
      var before := ev[..|ev| - 1];
      AnswersSplit(before);
      match ev[|ev| - 1].event
      case WriteConfirmation(n, _) => NumbersAppend(AnswerLog(before), Done(n));
      case WriteError(n, cause) => NumbersAppend(AnswerLog(before), Failed(n, cause));
      case _ => assert AnswerLog(ev) == AnswerLog(before);
    }
  }

  lemma NoNumbers()
    ensures Numbers([]) == []
  {
  }

  /** No write is lost and none is answered twice, on any path. */
  lemma WriteConservation(boot: ConnectAnswers, inputs: seq<Input>)
    ensures var m := Run(boot, inputs);
      multiset(Commanded(inputs)) == Confirmed(m.events) + Errored(m.events) + multiset(Seqs(m.pendingWrites))
  {
    hide Run, Wakeup.Wakeups, Link, Escalation, InOrder;
    RunKeeps(boot, inputs);
    ReceivedIsCommanded(boot, inputs);
    AnswersSplit(Run(boot, inputs).events);
  }

  lemma AnsweredAtMostOnce(boot: ConnectAnswers, inputs: seq<Input>, n: nat)
    requires Increasing(Commanded(inputs))
    ensures var m := Run(boot, inputs);
      Confirmed(m.events)[n] + Errored(m.events)[n] + multiset(Seqs(m.pendingWrites))[n] <= 1
  {
    hide Run, Increasing;
    WriteConservation(boot, inputs);
    IncreasingIsDistinct(Commanded(inputs), n);
  }

  /**
   * Confirmations and evictions leave in request order, ahead of everything that waits; and when
   * `n` is confirmed every earlier request has been answered.
   */
  lemma AnswerOrder(boot: ConnectAnswers, inputs: seq<Input>)
    requires Increasing(Commanded(inputs))
    ensures var m := Run(boot, inputs); var log := AnswerLog(m.events);
      && Increasing(Drained(log) + Seqs(m.pendingWrites))
      && forall i, k | 0 <= i < |log| && log[i].Done? && k in Commanded(inputs) && k < log[i].seqNo ::
        k in Numbers(log[..i])
  {
    hide Run, Wakeup.Wakeups, Link, Escalation, Increasing;
    RunKeeps(boot, inputs);
    ReceivedIsCommanded(boot, inputs);
  }

  /** Every event of a run is backed by what the manager did with the line. */
  lemma {:induction false} EventsAreBacked(boot: ConnectAnswers, inputs: seq<Input>, i: nat)
    requires i < |Run(boot, inputs).events|
    ensures var m := Run(boot, inputs); Backed(m.events[i], m.wire, m.talks)
    decreases |inputs|
  {
    hide OnConnect, Step;
    if inputs == [] {
      ConnectGrows(NEW_MANAGER, boot);
    } else {
      var before := Run(boot, inputs[..|inputs| - 1]);
      var m := Run(boot, inputs);
      StepGrows(before, inputs[|inputs| - 1]);
      if i < |before.events| {
        EventsAreBacked(boot, inputs[..|inputs| - 1], i);
        StillBacked(m.events[i], before, m);
      }
    }
  }

  lemma StillBacked(e: Stamped, before: Manager, m: Manager)
    requires Backed(e, before.wire, before.talks) && before.wire <= m.wire && before.talks <= m.talks
    ensures Backed(e, m.wire, m.talks)
  {
    match e.event
    case Data(d) =>
      var i: nat :| GotData(before.talks, i, d);
      assert GotData(m.talks, i, d);
    case WriteConfirmation(n, readback) =>
      var i: nat :| ReadBack(before.talks, i, n, readback);
      assert ReadBack(m.talks, i, n, readback);
    case _ =>
  }

  /**
   * A write is confirmed only after it was handed to the protocol, at least the settle time before
   * its confirmation.
   */
  lemma ConfirmedWasWritten(boot: ConnectAnswers, inputs: seq<Input>, i: nat)
    requires i < |Run(boot, inputs).events| && Run(boot, inputs).events[i].event.WriteConfirmation?
    ensures var m := Run(boot, inputs);
      exists w | w in m.wire :: w.seqNo == m.events[i].event.seqNo && w.at + 300 * MILLISECOND <= m.events[i].at
  {
    hide Run;
    EventsAreBacked(boot, inputs, i);
  }

  /** Retries aside, writes reach the BMS in request order and never stale; the queue stays short. */
  lemma WireDiscipline(boot: ConnectAnswers, inputs: seq<Input>)
    ensures var m := Run(boot, inputs);
      && |m.pendingWrites| <= 5
      && (forall w | w in m.wire :: w.queuedAt <= w.at <= w.queuedAt + 10 * SECOND && w.seqNo in Commanded(inputs))
      && (Increasing(Commanded(inputs)) ==> forall i, j | 0 <= i < j < |m.wire| :: m.wire[i].seqNo <= m.wire[j].seqNo)
  {
    hide Run, Wakeup.Wakeups, Link, Escalation, Increasing, Sound;
    RunKeeps(boot, inputs);
    ReceivedIsCommanded(boot, inputs);
  }

  /** Head-only eviction in any reachable state removes exactly the expired writes. */
  lemma EvictionDropsTheExpired(boot: ConnectAnswers, inputs: seq<Input>)
    ensures var m := Run(boot, inputs);
      EvictExpired(m).pendingWrites == StillFresh(m.pendingWrites, m.now)
  {
    hide Run, Wakeup.Wakeups, Link, Escalation, Sound, EvictExpired, StillFresh;
    RunKeeps(boot, inputs);
    EvictionIsFiltering(Run(boot, inputs));
  }

  /**
   * An outage is reported as permanent, or costs a write its place, no sooner than ten seconds
   * after its first link-down event, whatever failed and whenever the timers fired.
   */
  lemma OutageTiming(boot: ConnectAnswers, inputs: seq<Input>, i: nat) returns (j: nat)
    requires i < |Run(boot, inputs).events|
    requires var e := Run(boot, inputs).events[i].event;
      e == Connection(Disconnected) || (e.WriteError? && e.cause == Capped)
    ensures var ev := Run(boot, inputs).events;
      && j < i && ev[j].event.Connection? && ev[j].event.state != Connected
      && Attempts(ev[..j]) == 0 && (forall k | j <= k < i :: ev[k].event != Connection(Connected))
      && ev[i].at >= ev[j].at + 10 * SECOND
  {
    hide Run, Wakeup.Wakeups, Writes, Escalation, Attempts, FirstDown, Grammar;
    var ev := Run(boot, inputs).events;
    RunKeeps(boot, inputs);
    LegalAt(ev, i);
    j := OutageBegan(ev[..i]);
    assert ev[..i][..j] == ev[..j];
  }

  /** At most five `Reconnecting`, then only `Disconnected`; `Connected` follows a full resync. */
  lemma LinkGrammar(boot: ConnectAnswers, inputs: seq<Input>, i: nat)
    requires i < |Run(boot, inputs).events|
    ensures var ev := Run(boot, inputs).events; Legal(ev[..i], ev[i])
  {
    hide Run, Wakeup.Wakeups, Writes, Escalation, Grammar, Legal;
    RunKeeps(boot, inputs);
    LegalAt(Run(boot, inputs).events, i);
  }

  /** The attempt counter counts the outage's link events, and is zero while the link is up. */
  lemma AttemptCounter(boot: ConnectAnswers, inputs: seq<Input>)
    ensures var m := Run(boot, inputs);
      m.reconnectAttempt == Attempts(m.events) && (m.transport <==> m.reconnectAttempt == 0)
  {
    hide Run, Wakeup.Wakeups, Writes, Escalation, Grammar, Attempts;
    RunKeeps(boot, inputs);
  }

  /** Five soft failures in a row or one hard error, and nothing else, drop an established link. */
  lemma DropsExactlyWhenStuck(boot: ConnectAnswers, inputs: seq<Input>, i: nat)
    requires i < |Run(boot, inputs).marks|
    ensures var marks := Run(boot, inputs).marks;
      && (IsEstablished(marks[..i]) ==> (marks[i] == Dropped <==> MustDrop(marks[..i])))
      && !MustDrop(marks)
  {
    hide Run, Wakeup.Wakeups, Writes, Link, Lawful, IsEstablished, IsOpen, Failures;
    var m := Run(boot, inputs);
    RunKeeps(boot, inputs);
    LawfulAt(m.marks, i);
    if IsEstablished(m.marks[..i]) {
      EstablishedIsOpen(m.marks[..i]);
    }
  }

  lemma {:induction false} EstablishedIsOpen(marks: seq<Mark>)
    requires Lawful(marks) && IsEstablished(marks)
    ensures IsOpen(marks)
  {
    if marks[|marks| - 1] != Established {
      EstablishedIsOpen(marks[..|marks| - 1]);
    }
  }

  /** The counter is the number of soft failures since the last success, open or drop. */
  lemma CounterIsHistory(boot: ConnectAnswers, inputs: seq<Input>)
    ensures var m := Run(boot, inputs);
      && m.consecutiveFailures == Failures(m.marks) <= 4
      && (m.transport <==> IsOpen(m.marks)) && (m.transport <==> IsEstablished(m.marks))
  {
    hide Run, Wakeup.Wakeups, Writes, Link, Lawful, IsEstablished, IsOpen, Failures;
    RunKeeps(boot, inputs);
    BelowThreshold(Run(boot, inputs));
  }

  /**
   * In any run an alarm poll comes right after a frame poll or a switch write, which drain the line:
   * a turn that ended in alarms is followed by one that asks for operational data first.
   */
  lemma AlarmsComeAfterDrains(boot: ConnectAnswers, inputs: seq<Input>, i: nat)
    requires i < |Run(boot, inputs).talks| && Line.IsAlarm(Run(boot, inputs).talks[i])
    ensures i > 0 && Line.Drains(Run(boot, inputs).talks[i - 1])
  {
    hide Run, Wakeup.Wakeups, Writes, Link, Escalation;
    RunKeeps(boot, inputs);
  }

  /** No wake-up is lost or duplicated, in any run. */
  lemma NoLostWakeups(boot: ConnectAnswers, inputs: seq<Input>)
    ensures var m := Run(boot, inputs);
      && Wakeup.Queued(m, Connect) == (if m.transport then 0 else 1)
      && Wakeup.Queued(m, RunDataPolling) == (if m.dataPollingScheduled then 1 else 0)
      && Wakeup.Queued(m, RetryWrites) == (if m.retryWritesScheduled then 1 else 0)
      && (m.transport ==> m.dataPollingScheduled && (m.pendingWrites != [] ==> m.retryWritesScheduled))
  {
    hide Run, Writes, Link, Escalation, Wakeup.Queued;
    RunKeeps(boot, inputs);
  }
}
