/**
 * The order of the manager's talks with the line.  An alarm poll never comes right after another
 * one or after the port was opened: a call that drains the line always stands before it.
 */
module ManagerTalks {
  import opened Wrappers
  import opened JkBmsTypes
  import opened ManagerSpec
  import opened ManagerWakeups

  predicate IsAlarm(t: Talk) {
    t.Asking? && t.poll.AlarmsAnswer?
  }

  /** Frame polls and switch writes drain the line first if a drain is owed. */
  predicate Drains(t: Talk) {
    t.Switching? || (t.Asking? && !t.poll.AlarmsAnswer?)
  }

  predicate AlarmsFollowDrains(talks: seq<Talk>) {
    forall i | 0 <= i < |talks| && IsAlarm(talks[i]) :: i > 0 && Drains(talks[i - 1])
  }

  predicate EndsInAlarm(talks: seq<Talk>) {
    talks != [] && IsAlarm(talks[|talks| - 1])
  }

  predicate EndsInDrain(talks: seq<Talk>) {
    talks != [] && Drains(talks[|talks| - 1])
  }

  /** Every polling turn that waits will find operational data due. */
  predicate PollNotBefore(q: seq<Delayed>, last: Option<Instant>) {
    last.Some? ==>
      forall i | 0 <= i < |q| && q[i].command == RunDataPolling :: q[i].due >= last.value + OPERATIONAL_POLL_INTERVAL
  }

  predicate NoPolling(q: seq<InternalCommand>) {
    forall i | 0 <= i < |q| :: q[i] != RunDataPolling
  }

  predicate Past(m: Manager) {
    m.lastOperational.Some? ==> m.lastOperational.value <= m.now
  }

  predicate Settled(m: Manager) {
    Past(m) && AlarmsFollowDrains(m.talks) && (m.transport ==> EndsInDrain(m.talks) || EndsInAlarm(m.talks))
  }

  predicate Talking(m: Manager) {
    && Settled(m)
    && (m.transport && EndsInAlarm(m.talks) ==>
      NoPolling(m.internalQueue) && PollNotBefore(m.delayQueue, m.lastOperational))
  }

  // ---- Handlers that do not talk ----

  /** `m'` came from `m` without a talk, and no polling turn was added to what waits. */
  predicate Silent(m: Manager, m': Manager) {
    && m'.talks == m.talks && m'.lastOperational == m.lastOperational && m'.now >= m.now
    && (m'.transport ==> m.transport)
    && (NoPolling(m.internalQueue) ==> NoPolling(m'.internalQueue))
    && (PollNotBefore(m.delayQueue, m.lastOperational) ==> PollNotBefore(m'.delayQueue, m'.lastOperational))
  }

  lemma SilentKeeps(m: Manager, m': Manager)
    requires Talking(m) && Silent(m, m')
    ensures Talking(m')
  {
    hide AlarmsFollowDrains, EndsInAlarm, EndsInDrain, NoPolling, PollNotBefore;
  }

  lemma ReconnectIsSilent(m: Manager)
    ensures Silent(m, ScheduleReconnect(m)) && ScheduleReconnect(m).transport == m.transport
  {
  }

  lemma DisconnectIsSilent(m: Manager)
    requires m.transport
    ensures Silent(m, HandleDisconnect(m)) && !HandleDisconnect(m).transport
  {
    hide ScheduleReconnect;
    ReconnectIsSilent(Note(m.(transport := false, consecutiveFailures := 0), Dropped));
  }

  lemma RetriesAreSilent(m: Manager, d: nat)
    ensures Silent(m, ScheduleRetryNow(m)) && Silent(m, ScheduleRetryDelayed(m, d))
  {
  }

  lemma WriteErrorIsSilent(m: Manager, e: JkBmsError)
    requires m.transport
    ensures Silent(m, HandleWriteError(m, e))
  {
    hide HandleDisconnect, ScheduleRetryDelayed;
    DisconnectIsSilent(Note(m, Hard));
    DisconnectIsSilent(CountSoftFailure(m));
    RetriesAreSilent(CountSoftFailure(m), RETRY_WRITE_SOFT_DELAY);
  }

  lemma {:induction false} EvictionIsSilent(m: Manager)
    ensures Silent(m, EvictExpired(m)) && EvictExpired(m).transport == m.transport
    decreases |m.pendingWrites|
  {
    hide NoPolling, PollNotBefore;
    if m.pendingWrites != [] && ExpiredAt(m.pendingWrites[0], m.now) {
      EvictionIsSilent(Emit(m.(pendingWrites := m.pendingWrites[1..]), WriteError(m.pendingWrites[0].seqNo, Expired)));
    }
  }

  // ---- Talks ----

  lemma TalkAppends(talks: seq<Talk>, t: Talk)
    requires AlarmsFollowDrains(talks) && (IsAlarm(t) ==> EndsInDrain(talks))
    ensures AlarmsFollowDrains(talks + [t])
    ensures EndsInAlarm(talks + [t]) == IsAlarm(t) && EndsInDrain(talks + [t]) == Drains(t)
  {
  }

  /** One poll of an open link. */
  lemma PollTalks(m: Manager, a: Polled)
    requires m.transport && Past(m)
    ensures var (m', e) := PollData(m, a);
      && m'.talks == m.talks + [Asking(a)] && Past(m') && m'.transport
      && (!a.OperationalAnswer? ==> m'.lastOperational == m.lastOperational)
      && m'.internalQueue == m.internalQueue && m'.delayQueue == m.delayQueue
  {
  }

  lemma ResyncTalks(m: Manager, a: ConnectAnswers)
    requires m.transport && Past(m) && AlarmsFollowDrains(m.talks)
    ensures var (m', e) := Resync(m, a);
      && Past(m') && m'.transport && AlarmsFollowDrains(m'.talks) && EndsInDrain(m'.talks)
  {
    hide PollData, AlarmsFollowDrains, EndsInDrain, EndsInAlarm;
    var (m1, e1) := PollData(m, InfoAnswer(a.info));
    PollTalks(m, InfoAnswer(a.info));
    TalkAppends(m.talks, Asking(InfoAnswer(a.info)));
    var (m2, e2) := PollData(m1, ConfigAnswer(a.config));
    PollTalks(m1, ConfigAnswer(a.config));
    TalkAppends(m1.talks, Asking(ConfigAnswer(a.config)));
    PollTalks(m2, OperationalAnswer(a.operational));
    TalkAppends(m2.talks, Asking(OperationalAnswer(a.operational)));
  }

  lemma EndsOnce(talks: seq<Talk>)
    ensures !(EndsInDrain(talks) && EndsInAlarm(talks))
  {
  }

  lemma ConnectTalks(m: Manager, a: ConnectAnswers)
    requires Past(m) && AlarmsFollowDrains(m.talks) && !m.transport
    ensures Talking(OnConnect(m, a))
  {
    hide Resync, HandleDisconnect, ScheduleReconnect, AlarmsFollowDrains, EndsInDrain, EndsInAlarm;
    if a.open.Err? {
      ReconnectIsSilent(Wait(m, a.open.took));
    } else {
      var m1 := OnOpened(m, a.open.took);
      TalkAppends(m.talks, Opening);
      ResyncTalks(m1, a);
      var (m2, e) := Resync(m1, a);
      DisconnectIsSilent(m2);
      EndsOnce(m2.talks);
    }
  }

  /** The polling turn: if the last talk was an alarm poll, operational data is due and asked for first. */
  lemma PollingTalks(m: Manager, a: PollAnswers)
    requires Settled(m)
    requires m.transport && EndsInAlarm(m.talks) ==> Due(m.lastOperational, OPERATIONAL_POLL_INTERVAL, m.now)
    requires NoPolling(m.internalQueue)
    requires forall i | 0 <= i < |m.delayQueue| :: m.delayQueue[i].command != RunDataPolling
    ensures Talking(OnRunDataPolling(m, a))
  {
    hide PollIfDue, AlarmsFollowDrains, EndsInDrain, EndsInAlarm, NoPolling, Due;
    var m0 := m.(dataPollingScheduled := false);
    if m0.transport {
      EndsOnce(m.talks);
      var d1 := Due(m0.lastDeviceInfo, DEVICE_INFO_POLL_INTERVAL, m0.now);
      var (m1, ok1) := PollIfDue(m0, d1, InfoAnswer(a.info));
      TurnTalks(m0, d1, InfoAnswer(a.info));
      if !ok1 { return; }
      var d2 := Due(m1.lastConfig, CONFIG_POLL_INTERVAL, m0.now);
      var (m2, ok2) := PollIfDue(m1, d2, ConfigAnswer(a.config));
      TurnTalks(m1, d2, ConfigAnswer(a.config));
      if !ok2 { return; }
      var d3 := Due(m2.lastOperational, OPERATIONAL_POLL_INTERVAL, m0.now);
      var (m3, ok3) := PollIfDue(m2, d3, OperationalAnswer(a.operational));
      TurnTalks(m2, d3, OperationalAnswer(a.operational));
      if !ok3 { return; }
      var d4 := Due(m3.lastAlarms, ALARM_POLL_INTERVAL, m0.now);
      var (m4, ok4) := PollIfDue(m3, d4, AlarmsAnswer(a.alarms));
      TurnTalks(m3, d4, AlarmsAnswer(a.alarms));
      if !ok4 { return; }
      NextTurnIsLate(m4);
    }
  }

  /** One poll of a polling turn, if it is due. */
  lemma TurnTalks(m: Manager, due: bool, a: Polled)
    requires m.transport && Past(m) && AlarmsFollowDrains(m.talks)
    requires due && a.AlarmsAnswer? ==> EndsInDrain(m.talks)
    ensures var (m', ok) := PollIfDue(m, due, a);
      && Past(m') && AlarmsFollowDrains(m'.talks) && ok == m'.transport
      && (!due ==> m' == m)
      && (due ==> EndsInDrain(m'.talks) == !a.AlarmsAnswer? && EndsInAlarm(m'.talks) == a.AlarmsAnswer?)
      && (!a.OperationalAnswer? ==> m'.lastOperational == m.lastOperational)
      && m'.internalQueue == m.internalQueue && (ok ==> m'.delayQueue == m.delayQueue)
  {
    hide PollData, HandleDisconnect, AlarmsFollowDrains, EndsInDrain, EndsInAlarm, NoPolling, PollNotBefore;
    if due {
      PollTalks(m, a);
      TalkAppends(m.talks, Asking(a));
      var (m1, e) := PollData(m, a);
      DisconnectIsSilent(Note(m1, Hard));
      DisconnectIsSilent(CountSoftFailure(m1));
      DisconnectKeepsInternal(Note(m1, Hard));
      DisconnectKeepsInternal(CountSoftFailure(m1));
    }
  }

  lemma DisconnectKeepsInternal(m: Manager)
    ensures HandleDisconnect(m).internalQueue == m.internalQueue
  {
  }

  lemma NextTurnIsLate(m: Manager)
    requires Past(m) && NoPolling(m.internalQueue)
    requires forall i | 0 <= i < |m.delayQueue| :: m.delayQueue[i].command != RunDataPolling
    ensures var m' := SchedulePollingDelayed(m, MIN_POLL_INTERVAL);
      && m'.talks == m.talks && m'.transport == m.transport && Past(m')
      && NoPolling(m'.internalQueue) && PollNotBefore(m'.delayQueue, m'.lastOperational)
  {
  }

  lemma DoWriteTalks(m: Manager, w: PendingWrite, a: WriteAnswers)
    requires Settled(m) && m.transport
    ensures var (m', e) := DoWrite(m, w, a);
      Settled(m') && m'.transport && EndsInDrain(m'.talks)
  {
    hide AlarmsFollowDrains, EndsInDrain, EndsInAlarm;
    var sent := Switching(w.seqNo, w.command, a.write);
    TalkAppends(m.talks, sent);
    TalkAppends(m.talks + [sent], Asking(ConfigAnswer(a.config)));
  }

  lemma WriteTalks(m: Manager, command: WriteCommand, n: nat, a: WriteAnswers)
    requires Talking(m)
    ensures Talking(OnWriteCommand(m, command, n, a))
  {
    hide DoWrite, HandleWriteError, ScheduleRetryNow, AlarmsFollowDrains, EndsInDrain, EndsInAlarm, NoPolling,
      PollNotBefore;
    var m0 := m.(received := m.received + [n]);
    if m.transport && m.pendingWrites == [] {
      var w := PendingWrite(command, n, m.now);
      DoWriteTalks(m0, w, a);
      var (m1, e) := DoWrite(m0, w, a);
      EndsOnce(m1.talks);
      if e.Some? {
        var m2 := m1.(pendingWrites := m1.pendingWrites + [PendingWrite(command, n, m1.now)]);
        WriteErrorIsSilent(m2, e.value);
        SilentKeeps(m2, HandleWriteError(m2, e.value));
      }
    } else {
      var m1 := m0.(pendingWrites := m0.pendingWrites + [PendingWrite(command, n, m0.now)]);
      RetriesAreSilent(m1, 0);
      SilentKeeps(m1, ScheduleRetryNow(m1));
    }
  }

  lemma RetryTalks(m: Manager, a: WriteAnswers)
    requires Talking(m)
    ensures Talking(OnRetryWrites(m, a))
  {
    hide DoWrite, HandleWriteError, EvictExpired, ScheduleRetryNow, AlarmsFollowDrains, EndsInDrain, EndsInAlarm,
      NoPolling, PollNotBefore;
    var m0 := m.(retryWritesScheduled := false);
    if m.transport {
      EvictionIsSilent(m0);
      var m1 := EvictExpired(m0);
      SilentKeeps(m0, m1);
      if m1.pendingWrites != [] {
        DoWriteTalks(m1, m1.pendingWrites[0], a);
        var (m2, e) := DoWrite(m1, m1.pendingWrites[0], a);
        EndsOnce(m2.talks);
        if e.Some? {
          WriteErrorIsSilent(m2, e.value);
          SilentKeeps(m2, HandleWriteError(m2, e.value));
        } else {
          var m3 := m2.(pendingWrites := if m2.pendingWrites == [] then [] else m2.pendingWrites[1..]);
          RetriesAreSilent(m3, 0);
          SilentKeeps(m3, ScheduleRetryNow(m3));
        }
      }
    }
  }

  // ---- Steps ----

  lemma {:induction false} NoneQueued(q: seq<InternalCommand>, d: seq<Delayed>)
    requires CountIn(q, RunDataPolling) == 0 && CountDelayed(d, RunDataPolling) == 0
    ensures NoPolling(q) && forall i | 0 <= i < |d| :: d[i].command != RunDataPolling
    decreases |q|, |d|
  {
    if q != [] {
      NoneQueued(q[..|q| - 1], d);
    } else if d != [] {
      NoneQueued(q, d[..|d| - 1]);
    }
  }

  /** A command that waited is handled; if it is the polling turn, it comes when data is due. */
  lemma InternalTalks(m: Manager, popped: Manager, c: InternalCommand, a: Answers)
    requires Talking(m) && Wakeups(m)
    requires popped == m.(internalQueue := popped.internalQueue, delayQueue := popped.delayQueue)
    requires forall k :: Queued(popped, k) == Queued(m, k) - if k == c then 1 else 0
    requires Talking(popped)
    requires c == RunDataPolling && m.transport && EndsInAlarm(m.talks) ==>
      Due(m.lastOperational, OPERATIONAL_POLL_INTERVAL, m.now)
    ensures Talking(HandleInternal(popped, c, a))
  {
    hide OnConnect, OnRunDataPolling, OnRetryWrites, AlarmsFollowDrains, EndsInDrain, EndsInAlarm, NoPolling,
      PollNotBefore, CountIn, CountDelayed, Due;
    match c
    case Connect =>
      assert Queued(popped, Connect) == Queued(m, Connect) - 1;
      ConnectTalks(popped, a.connect);
    case RunDataPolling =>
      assert Queued(popped, RunDataPolling) == Queued(m, RunDataPolling) - 1;
      NoneQueued(popped.internalQueue, popped.delayQueue);
      PollingTalks(popped, a.poll);
    case RetryWrites => RetryTalks(popped, a.write);
  }

  /** Every turn of the actor keeps the order of talks. */
  lemma StepTalks(m: Manager, input: Input)
    requires Talking(m) && Wakeups(m)
    ensures Talking(Step(m, input))
  {
    hide OnWriteCommand, HandleInternal, Wakeups, CountIn, CountDelayed, AlarmsFollowDrains, EndsInDrain, EndsInAlarm;
    match input
    case Tick(d) => SilentKeeps(m, Wait(m, d));
    case Command(command, n, write) => WriteTalks(m, command, n, write);
    case Internal(answers) =>
      if m.internalQueue != [] {
        var popped := m.(internalQueue := m.internalQueue[1..]);
        SilentKeeps(m, popped);
        forall k ensures Queued(popped, k) == Queued(m, k) - if k == m.internalQueue[0] then 1 else 0 {
          CountInDropFirst(m.internalQueue, k);
        }
        InternalTalks(m, popped, m.internalQueue[0], answers);
      }
    case Timer(i, answers) =>
      if i < |m.delayQueue| && m.delayQueue[i].due <= m.now {
        var popped := m.(delayQueue := RemoveAt(m.delayQueue, i));
        SilentKeeps(m, popped);
        forall k ensures Queued(popped, k) == Queued(m, k) - if k == m.delayQueue[i].command then 1 else 0 {
          CountDelayedRemove(m.delayQueue, i, k);
        }
        InternalTalks(m, popped, m.delayQueue[i].command, answers);
      }
  }

  lemma BootTalks(m: Manager, boot: ConnectAnswers)
    requires m.talks == [] && m.lastOperational == None && !m.transport
    ensures Talking(OnConnect(m, boot))
  {
    hide OnConnect;
    ConnectTalks(m, boot);
  }
}
