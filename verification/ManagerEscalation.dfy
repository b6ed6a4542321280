/**
 * The stuck-link counter against the link's history: an established link is dropped on a hard
 * error or on the fifth soft failure in a row, polls and writes mixed, and on nothing else.
 */
module ManagerEscalation {
  import opened Wrappers
  import opened JkBmsTypes
  import opened ManagerSpec

  /** Soft failures since the last success, open or drop. */
  function Failures(marks: seq<Mark>): nat {
    if marks == [] || marks[|marks| - 1] != Soft then 0 else Failures(marks[..|marks| - 1]) + 1
  }

  /** Whether the port is open. */
  predicate IsOpen(marks: seq<Mark>) {
    marks != [] && match marks[|marks| - 1] case Opened => true case Dropped => false
      case _ => IsOpen(marks[..|marks| - 1])
  }

  /** Whether the port is open and its resync has completed. */
  predicate IsEstablished(marks: seq<Mark>) {
    marks != [] && match marks[|marks| - 1] case Established => true case Opened => false case Dropped => false
      case _ => IsEstablished(marks[..|marks| - 1])
  }

  /** A hard error, or the fifth soft failure in a row. */
  predicate MustDrop(marks: seq<Mark>) {
    marks != [] && (marks[|marks| - 1] == Hard || Failures(marks) >= 5)
  }

  /** Whether `x` may follow `prev`. */
  predicate LegalMark(prev: seq<Mark>, x: Mark) {
    match x
    case Opened => !IsOpen(prev)
    case Established => IsOpen(prev) && !IsEstablished(prev)
    case Dropped => IsOpen(prev) && (IsEstablished(prev) ==> MustDrop(prev))
    case _ => IsEstablished(prev) && !MustDrop(prev)
  }

  predicate Lawful(marks: seq<Mark>) {
    marks == [] || (Lawful(marks[..|marks| - 1]) && LegalMark(marks[..|marks| - 1], marks[|marks| - 1]))
  }

  predicate Counter(m: Manager) {
    && Lawful(m.marks) && m.consecutiveFailures == Failures(m.marks)
    && m.transport == IsOpen(m.marks) == IsEstablished(m.marks)
  }

  predicate Escalation(m: Manager) {
    Counter(m) && !MustDrop(m.marks)
  }

  predicate SameHistory(m: Manager, m': Manager) {
    m'.marks == m.marks && m'.transport == m.transport && m'.consecutiveFailures == m.consecutiveFailures
  }

  lemma BelowThreshold(m: Manager)
    requires Escalation(m)
    ensures m.consecutiveFailures < RECONNECT_THRESHOLD
  {
  }

  lemma Success(m: Manager)
    requires Escalation(m) && m.transport
    ensures Escalation(Note(m.(consecutiveFailures := 0), Good))
  {
  }

  lemma SoftFailure(m: Manager)
    requires Escalation(m) && m.transport
    ensures var m' := CountSoftFailure(m);
      Counter(m') && MustDrop(m'.marks) == (m'.consecutiveFailures >= RECONNECT_THRESHOLD)
  {
  }

  lemma HardFailure(m: Manager)
    requires Escalation(m) && m.transport
    ensures IsOpen(m.marks + [Hard]) && Lawful(m.marks + [Hard]) && MustDrop(m.marks + [Hard])
  {
  }

  lemma Drop(m: Manager)
    requires m.transport && Lawful(m.marks) && IsOpen(m.marks)
    requires IsEstablished(m.marks) ==> MustDrop(m.marks)
    ensures Escalation(HandleDisconnect(m))
  {
    hide ScheduleReconnect;
    var m1 := Note(m.(transport := false, consecutiveFailures := 0), Dropped);
    ReconnectHistory(m1);
  }

  lemma ReconnectHistory(m: Manager)
    ensures SameHistory(m, ScheduleReconnect(m))
  {
  }

  lemma ResyncHistory(m: Manager, a: ConnectAnswers)
    ensures SameHistory(m, Resync(m, a).0)
  {
    hide PollData;
    var (m1, e1) := PollData(m, InfoAnswer(a.info));
    PollDataEffect(m, InfoAnswer(a.info));
    var (m2, e2) := PollData(m1, ConfigAnswer(a.config));
    PollDataEffect(m1, ConfigAnswer(a.config));
    PollDataEffect(m2, OperationalAnswer(a.operational));
  }

  lemma Opening(marks: seq<Mark>)
    requires Lawful(marks) && !IsOpen(marks)
    ensures Lawful(marks + [Opened]) && IsOpen(marks + [Opened]) && !IsEstablished(marks + [Opened])
    ensures var l := marks + [Opened, Established];
      Lawful(l) && IsOpen(l) && IsEstablished(l) && Failures(l) == 0 && !MustDrop(l)
  {
    var o := marks + [Opened];
    assert marks + [Opened, Established] == o + [Established];
  }

  lemma ConnectEscalation(m: Manager, a: ConnectAnswers)
    requires Escalation(m)
    ensures Escalation(OnConnect(m, a))
  {
    hide Resync, HandleDisconnect, ScheduleReconnect, Lawful, IsOpen, IsEstablished, Failures;
    if !m.transport {
      if a.open.Err? {
        ReconnectHistory(Wait(m, a.open.took));
      } else {
        var m1 := OnOpened(m, a.open.took);
        var (m2, e) := Resync(m1, a);
        ResyncHistory(m1, a);
        Opening(m.marks);
        if e.Some? {
          Drop(m2);
        } else {
          assert m.marks + [Opened, Established] == m2.marks + [Established];
        }
      }
    }
  }

  lemma PollEscalation(m: Manager, due: bool, a: Polled)
    requires Escalation(m) && m.transport
    ensures var (m', ok) := PollIfDue(m, due, a); Escalation(m') && (ok ==> m'.transport)
  {
    hide PollData, HandleDisconnect, Lawful, IsOpen, IsEstablished, Failures;
    var (m1, e) := PollData(m, a);
    PollDataEffect(m, a);
    Success(m1);
    if e.Some? && e.value.IsHardIo() {
      HardFailure(m1);
      Drop(Note(m1, Hard));
    } else {
      SoftFailure(m1);
      if CountSoftFailure(m1).consecutiveFailures >= RECONNECT_THRESHOLD {
        Drop(CountSoftFailure(m1));
      }
    }
  }

  lemma PollingEscalation(m: Manager, a: PollAnswers)
    requires Escalation(m)
    ensures Escalation(OnRunDataPolling(m, a))
  {
    hide PollIfDue, Lawful, IsOpen, IsEstablished, Failures, MustDrop;
    var m0 := m.(dataPollingScheduled := false);
    if m.transport {
      var d1 := Due(m0.lastDeviceInfo, DEVICE_INFO_POLL_INTERVAL, m0.now);
      var (m1, ok1) := PollIfDue(m0, d1, InfoAnswer(a.info));
      PollEscalation(m0, d1, InfoAnswer(a.info));
      if !ok1 { return; }
      var d2 := Due(m1.lastConfig, CONFIG_POLL_INTERVAL, m0.now);
      var (m2, ok2) := PollIfDue(m1, d2, ConfigAnswer(a.config));
      PollEscalation(m1, d2, ConfigAnswer(a.config));
      if !ok2 { return; }
      var d3 := Due(m2.lastOperational, OPERATIONAL_POLL_INTERVAL, m0.now);
      var (m3, ok3) := PollIfDue(m2, d3, OperationalAnswer(a.operational));
      PollEscalation(m2, d3, OperationalAnswer(a.operational));
      if !ok3 { return; }
      var d4 := Due(m3.lastAlarms, ALARM_POLL_INTERVAL, m0.now);
      PollEscalation(m3, d4, AlarmsAnswer(a.alarms));
    }
  }

  lemma DoWriteEscalation(m: Manager, w: PendingWrite, a: WriteAnswers)
    requires Escalation(m) && m.transport
    ensures var (m', e) := DoWrite(m, w, a);
      Escalation(m') && m'.transport && m'.pendingWrites == m.pendingWrites
      && m'.consecutiveFailures == if e.None? then 0 else m.consecutiveFailures
  {
    hide Lawful, IsOpen, IsEstablished, Failures, MustDrop;
    Success(m);
  }

  lemma WriteErrorEscalation(m: Manager, e: JkBmsError)
    requires Escalation(m) && m.transport
    ensures var m' := HandleWriteError(m, e);
      && Escalation(m') && m'.pendingWrites == m.pendingWrites
      && (m'.transport ==> m'.consecutiveFailures == m.consecutiveFailures + 1)
  {
    hide HandleDisconnect, Lawful, IsOpen, IsEstablished, Failures;
    if e.IsHardIo() {
      HardFailure(m);
      Drop(Note(m, Hard));
      DropsTransport(Note(m, Hard));
    } else {
      SoftFailure(m);
      var m1 := CountSoftFailure(m);
      if m1.consecutiveFailures >= RECONNECT_THRESHOLD {
        Drop(m1);
        DropsTransport(m1);
      }
    }
  }

  lemma DropsTransport(m: Manager)
    ensures !HandleDisconnect(m).transport && HandleDisconnect(m).pendingWrites == m.pendingWrites
  {
  }

  lemma CommandEscalation(m: Manager, command: WriteCommand, n: nat, a: WriteAnswers)
    requires Escalation(m)
    ensures Escalation(OnWriteCommand(m, command, n, a))
  {
    hide DoWrite, HandleWriteError, Lawful, IsOpen, IsEstablished, Failures, MustDrop;
    var m0 := m.(received := m.received + [n]);
    if m.transport && m.pendingWrites == [] {
      var (m1, e) := DoWrite(m0, PendingWrite(command, n, m.now), a);
      DoWriteEscalation(m0, PendingWrite(command, n, m.now), a);
      if e.Some? {
        WriteErrorEscalation(m1.(pendingWrites := m1.pendingWrites + [PendingWrite(command, n, m1.now)]), e.value);
      }
    }
  }

  lemma {:induction false} EvictHistory(m: Manager)
    ensures SameHistory(m, EvictExpired(m)) && |EvictExpired(m).pendingWrites| <= |m.pendingWrites|
    decreases |m.pendingWrites|
  {
    if m.pendingWrites != [] && ExpiredAt(m.pendingWrites[0], m.now) {
      EvictHistory(Emit(m.(pendingWrites := m.pendingWrites[1..]), WriteError(m.pendingWrites[0].seqNo, Expired)));
    }
  }

  /** Retry turns left: five per waiting write, less the failures already counted. */
  function RetriesLeft(m: Manager): int {
    5 * |m.pendingWrites| + 4 - m.consecutiveFailures
  }

  /** A retry turn that keeps the link makes progress, whatever the write's fate. */
  lemma RetryMakesProgress(m: Manager, a: WriteAnswers)
    requires Escalation(m)
    ensures var m' := OnRetryWrites(m, a);
      && Escalation(m')
      && (m'.transport && m.pendingWrites != [] ==> 0 <= RetriesLeft(m') < RetriesLeft(m))
  {
    hide DoWrite, HandleWriteError, EvictExpired, Counter, MustDrop;
    if m.transport {
      var m0 := m.(retryWritesScheduled := false);
      var m1 := EvictExpired(m0);
      EvictHistory(m0);
      HistoryIsEnough(m, m1);
      BelowThreshold(m1);
      if m1.pendingWrites != [] {
        var (m2, e) := DoWrite(m1, m1.pendingWrites[0], a);
        DoWriteEscalation(m1, m1.pendingWrites[0], a);
        if e.Some? {
          WriteErrorEscalation(m2, e.value);
          BelowThreshold(HandleWriteError(m2, e.value));
        } else {
          HistoryIsEnough(m2, OnRetryWrites(m, a));
        }
      } else {
        HistoryIsEnough(m1, OnRetryWrites(m, a));
      }
    } else {
      HistoryIsEnough(m, OnRetryWrites(m, a));
    }
  }

  lemma HistoryIsEnough(m: Manager, m': Manager)
    requires Escalation(m) && SameHistory(m, m')
    ensures Escalation(m')
  {
  }

  /** A retry turn, and how long after the previous one it comes. */
  datatype RetryTurn = RetryTurn(after: nat, answers: WriteAnswers)

  function Retries(m: Manager, turns: seq<RetryTurn>): Manager {
    if turns == [] then m else
    var last := turns[|turns| - 1];
    OnRetryWrites(Wait(Retries(m, turns[..|turns| - 1]), last.after), last.answers)
  }

  /** Every turn starts with a write waiting and leaves the link up. */
  predicate StillTrying(m: Manager, turns: seq<RetryTurn>) {
    turns == [] ||
    (var before := turns[..|turns| - 1];
     StillTrying(m, before) && Retries(m, before).pendingWrites != [] && Retries(m, turns).transport)
  }

  /** So retrying ends: the queue empties or the link drops within `RetriesLeft` turns. */
  lemma {:induction false} RetryingEnds(m: Manager, turns: seq<RetryTurn>)
    requires Escalation(m) && StillTrying(m, turns)
    ensures Escalation(Retries(m, turns))
    ensures 0 <= RetriesLeft(Retries(m, turns)) <= RetriesLeft(m) - |turns|
  {
    hide OnRetryWrites, Escalation;
    if turns == [] {
      BelowThreshold(m);
    } else {
      var before := turns[..|turns| - 1];
      var last := turns[|turns| - 1];
      RetryingEnds(m, before);
      var r := Retries(m, before);
      HistoryIsEnough(r, Wait(r, last.after));
      RetryMakesProgress(Wait(r, last.after), last.answers);
    }
  }

  // ---- The history records the answers ----

  /** The mark that a call's answer leaves. */
  function MarkOf<T>(a: Answer<T>): Mark {
    if a.Ok? then Good
    else
      match a.error
      case Io(timedOut) => if timedOut then Soft else Hard
      case Parse => Soft
      case NotConnected => Soft
  }

  /** The marks after an attempt, and whether it leaves the link up. */
  predicate Recorded(m: Manager, x: Mark, m': Manager) {
    var marked := m.marks + [x];
    && m'.marks == (if MustDrop(marked) then marked + [Dropped] else marked)
    && m'.transport == !MustDrop(marked)
  }

  /** Each poll of an open link leaves the mark of its answer, and a drop after it if one is due. */
  lemma PollIsRecorded(m: Manager, a: Polled)
    requires Escalation(m) && m.transport
    ensures var (m', goOn) := PollWithEscalation(m, a);
      Recorded(m, MarkOf(a.Result()), m') && goOn == m'.transport
  {
    hide PollData, HandleDisconnect, Recorded, Escalation;
    var (m1, e) := PollData(m, a);
    PollDataEffect(m, a);
    HistoryIsEnough(m, m1);
    EachIsRecorded(m1);
    SameRecord(m, m1, MarkOf(a.Result()), PollWithEscalation(m, a).0);
    DropsTransport(Note(m1, Hard));
    DropsTransport(CountSoftFailure(m1));
  }

  /** Success, hard error and soft failure, one by one. */
  lemma EachIsRecorded(m: Manager)
    requires Escalation(m) && m.transport
    ensures Recorded(m, Good, Note(m.(consecutiveFailures := 0), Good))
    ensures Recorded(m, Hard, HandleDisconnect(Note(m, Hard)))
    ensures var m' := CountSoftFailure(m);
      Recorded(m, Soft, if m'.consecutiveFailures >= RECONNECT_THRESHOLD then HandleDisconnect(m') else m')
  {
    hide ScheduleReconnect, Lawful, IsOpen, IsEstablished, Failures;
    LastDecides(m.marks);
    SoftFailure(m);
    ReconnectHistory(Note(Note(m, Hard).(transport := false, consecutiveFailures := 0), Dropped));
    ReconnectHistory(Note(CountSoftFailure(m).(transport := false, consecutiveFailures := 0), Dropped));
  }

  lemma LastDecides(marks: seq<Mark>)
    ensures !MustDrop(marks + [Good]) && MustDrop(marks + [Hard])
  {
  }

  /** What a write leaves, its readback counting as part of it. */
  function MarkOfWrite(a: WriteAnswers): Mark {
    if a.write.Ok? then MarkOf(a.config) else MarkOf(a.write)
  }

  lemma WriteIsRecorded(m: Manager, w: PendingWrite, pending: seq<PendingWrite>, a: WriteAnswers)
    requires Escalation(m) && m.transport
    ensures var (m1, e) := DoWrite(m, w, a);
      && (e.None? <==> MarkOfWrite(a) == Good)
      && Recorded(m, MarkOfWrite(a), if e.None? then m1 else HandleWriteError(m1.(pendingWrites := pending), e.value))
  {
    hide DoWrite, HandleWriteError, Recorded;
    var (m1, e) := DoWrite(m, w, a);
    DoWriteIsRecorded(m, w, a);
    if e.Some? {
      var m2 := m1.(pendingWrites := pending);
      ErrorIsRecorded(m2, e.value);
      SameRecord(m, m2, MarkOfWrite(a), HandleWriteError(m2, e.value));
    }
  }

  lemma DoWriteIsRecorded(m: Manager, w: PendingWrite, a: WriteAnswers)
    requires Escalation(m) && m.transport
    ensures var (m1, e) := DoWrite(m, w, a);
      && (if e.None? then MarkOfWrite(a) == Good && Recorded(m, Good, m1)
          else SameHistory(m, m1) && MarkOfWrite(a) == if e.value.IsHardIo() then Hard else Soft)
  {
    hide Lawful, IsOpen, IsEstablished, Failures;
    LastDecides(m.marks);
  }

  lemma ErrorIsRecorded(m: Manager, e: JkBmsError)
    requires Escalation(m) && m.transport
    ensures Recorded(m, if e.IsHardIo() then Hard else Soft, HandleWriteError(m, e))
  {
    hide HandleDisconnect, Recorded, Escalation;
    EachIsRecorded(m);
    var m' := CountSoftFailure(m);
    if !e.IsHardIo() && m'.consecutiveFailures < RECONNECT_THRESHOLD {
      RecordIgnoresQueues(m, Soft, m', HandleWriteError(m, e));
    }
  }

  /** A command on an idle open link is tried at once and leaves its mark; it waits only if it failed. */
  lemma DirectWriteIsRecorded(m: Manager, command: WriteCommand, seqNo: nat, a: WriteAnswers)
    requires Escalation(m) && m.transport && m.pendingWrites == []
    ensures var m' := OnWriteCommand(m, command, seqNo, a);
      && Recorded(m, MarkOfWrite(a), m')
      && (MarkOfWrite(a) == Good <==> m'.pendingWrites == [])
  {
    hide DoWrite, HandleWriteError, Recorded, Escalation;
    var m0 := m.(received := m.received + [seqNo]);
    var w := PendingWrite(command, seqNo, m.now);
    var (m1, e) := DoWrite(m0, w, a);
    HistoryIsEnough(m, m0);
    WritesStay(m0, w, a);
    var pending := m1.pendingWrites + [PendingWrite(command, seqNo, m1.now)];
    WriteIsRecorded(m0, w, pending, a);
    if e.Some? {
      WritesStayOnError(m1.(pendingWrites := pending), e.value);
    }
    SameRecord(m, m0, MarkOfWrite(a), OnWriteCommand(m, command, seqNo, a));
  }

  /** A retry on an open link with a fresh write tries the head, and takes it off only on success. */
  lemma RetryIsRecorded(m: Manager, a: WriteAnswers)
    requires Escalation(m) && m.transport && EvictExpired(m).pendingWrites != []
    ensures var m' := OnRetryWrites(m, a); var waiting := EvictExpired(m).pendingWrites;
      && Recorded(m, MarkOfWrite(a), m')
      && m'.pendingWrites == (if MarkOfWrite(a) == Good then waiting[1..] else waiting)
  {
    hide DoWrite, HandleWriteError, Recorded, Escalation, EvictExpired;
    var m0 := m.(retryWritesScheduled := false);
    EvictIgnoresFlag(m);
    EvictHistory(m0);
    var m1 := EvictExpired(m0);
    HistoryIsEnough(m, m1);
    var w := m1.pendingWrites[0];
    WritesStay(m1, w, a);
    var (m2, e) := DoWrite(m1, w, a);
    WriteIsRecorded(m1, w, m2.pendingWrites, a);
    assert m2.(pendingWrites := m2.pendingWrites) == m2;
    if e.Some? {
      WritesStayOnError(m2, e.value);
      SameRecord(m, m1, MarkOfWrite(a), HandleWriteError(m2, e.value));
    } else {
      SameRecord(m, m1, MarkOfWrite(a), m2);
      RecordIgnoresQueues(m, MarkOfWrite(a), m2, OnRetryWrites(m, a));
    }
  }

  lemma SameRecord(m: Manager, m0: Manager, x: Mark, m': Manager)
    requires SameHistory(m, m0)
    ensures Recorded(m0, x, m') <==> Recorded(m, x, m')
  {
  }

  lemma RecordIgnoresQueues(m: Manager, x: Mark, a: Manager, b: Manager)
    requires SameHistory(a, b)
    ensures Recorded(m, x, a) <==> Recorded(m, x, b)
  {
  }

  lemma WritesStay(m: Manager, w: PendingWrite, a: WriteAnswers)
    ensures DoWrite(m, w, a).0.pendingWrites == m.pendingWrites
  {
  }

  lemma WritesStayOnError(m: Manager, e: JkBmsError)
    ensures HandleWriteError(m, e).pendingWrites == m.pendingWrites
  {
  }

  lemma {:induction false} EvictIgnoresFlag(m: Manager)
    ensures EvictExpired(m.(retryWritesScheduled := false)) == EvictExpired(m).(retryWritesScheduled := false)
    decreases |m.pendingWrites|
  {
    if m.pendingWrites != [] && ExpiredAt(m.pendingWrites[0], m.now) {
      EvictIgnoresFlag(Emit(m.(pendingWrites := m.pendingWrites[1..]), WriteError(m.pendingWrites[0].seqNo, Expired)));
    }
  }

  // ---- Steps ----

  /** Every turn of the actor keeps the counter true to the history. */
  lemma StepEscalation(m: Manager, input: Input)
    requires Escalation(m)
    ensures Escalation(Step(m, input))
  {
    hide Escalation, OnWriteCommand, HandleInternal;
    match input
    case Tick(d) => HistoryIsEnough(m, Wait(m, d));
    case Command(command, n, write) => CommandEscalation(m, command, n, write);
    case Internal(answers) =>
      if m.internalQueue != [] {
        var popped := m.(internalQueue := m.internalQueue[1..]);
        HistoryIsEnough(m, popped);
        InternalEscalation(popped, m.internalQueue[0], answers);
      }
    case Timer(i, answers) =>
      if i < |m.delayQueue| && m.delayQueue[i].due <= m.now {
        var popped := m.(delayQueue := RemoveAt(m.delayQueue, i));
        HistoryIsEnough(m, popped);
        InternalEscalation(popped, m.delayQueue[i].command, answers);
      }
  }

  lemma InternalEscalation(m: Manager, c: InternalCommand, a: Answers)
    requires Escalation(m)
    ensures Escalation(HandleInternal(m, c, a))
  {
    hide Escalation, OnConnect, OnRunDataPolling, OnRetryWrites;
    match c
    case Connect => ConnectEscalation(m, a.connect);
    case RunDataPolling => PollingEscalation(m, a.poll);
    case RetryWrites => RetryMakesProgress(m, a.write);
  }

  lemma BootEscalation(m: Manager, boot: ConnectAnswers)
    requires m.marks == [] && !m.transport && m.consecutiveFailures == 0
    ensures Escalation(OnConnect(m, boot))
  {
    hide OnConnect;
    ConnectEscalation(m, boot);
  }

  lemma {:induction false} LawfulAt(marks: seq<Mark>, i: nat)
    requires Lawful(marks) && i < |marks|
    ensures Lawful(marks[..i]) && LegalMark(marks[..i], marks[i])
    decreases |marks|
  {
    if i < |marks| - 1 {
      LawfulAt(marks[..|marks| - 1], i);
      assert marks[..|marks| - 1][..i] == marks[..i];
    }
  }

  /** `Failures` is the length of the run of soft failures at the end. */
  lemma {:induction false} FailuresAreTrailing(marks: seq<Mark>)
    ensures var k := Failures(marks);
      && k <= |marks| && (forall i | |marks| - k <= i < |marks| :: marks[i] == Soft)
      && (k < |marks| ==> marks[|marks| - k - 1] != Soft)
  {
    if marks != [] && marks[|marks| - 1] == Soft {
      FailuresAreTrailing(marks[..|marks| - 1]);
    }
  }
}
