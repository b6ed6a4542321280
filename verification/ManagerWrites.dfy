/**
 * Writes across the manager's handlers: none is lost or answered twice, answers leave in order,
 * the queue stays short and sorted, and nothing stale reaches the wire.
 */
module ManagerWrites {
  import opened Wrappers
  import opened JkBmsTypes
  import opened ManagerSpec
  import opened WriteLedger

  function AnswerIn(e: JkBmsEvent): seq<Reply> {
    match e
    case WriteConfirmation(n, _) => [Done(n)]
    case WriteError(n, cause) => [Failed(n, cause)]
    case _ => []
  }

  /** The write answers among the events, in order. */
  function AnswerLog(events: seq<Stamped>): seq<Reply> {
    if events == [] then [] else AnswerLog(events[..|events| - 1]) + AnswerIn(events[|events| - 1].event)
  }

  function Seqs(pending: seq<PendingWrite>): seq<nat> {
    if pending == [] then [] else Seqs(pending[..|pending| - 1]) + [pending[|pending| - 1].seqNo]
  }

  /** Bounded, in queue order, never from the future. */
  predicate QueueDiscipline(now: Instant, pending: seq<PendingWrite>) {
    && |pending| <= PENDING_WRITES_CAP
    && (forall i | 0 <= i < |pending| :: pending[i].queuedAt <= now)
    && (forall i, j | 0 <= i < j < |pending| :: pending[i].queuedAt <= pending[j].queuedAt)
  }

  /** No write is handed to the protocol later than the TTL after it was queued. */
  predicate WireFresh(wire: seq<WireWrite>) {
    forall i | 0 <= i < |wire| :: wire[i].queuedAt <= wire[i].at <= wire[i].queuedAt + WRITE_TTL
  }

  /** Writes reach the wire in request order; only retries repeat a number. */
  predicate WireOrdered(received: seq<nat>, wire: seq<WireWrite>, pending: seq<nat>) {
    && (forall i | 0 <= i < |wire| :: wire[i].seqNo in received)
    && (Increasing(received) ==>
      && (forall i, j | 0 <= i < j < |wire| :: wire[i].seqNo <= wire[j].seqNo)
      && (forall i, k | 0 <= i < |wire| && k in pending :: wire[i].seqNo <= k))
  }

  predicate WritesOf(now: Instant, received: seq<nat>, wire: seq<WireWrite>, pending: seq<PendingWrite>,
                     log: seq<Reply>)
  {
    && Sound(received, log, Seqs(pending))
    && QueueDiscipline(now, pending)
    && WireFresh(wire)
    && WireOrdered(received, wire, Seqs(pending))
  }

  predicate Writes(m: Manager) {
    WritesOf(m.now, m.received, m.wire, m.pendingWrites, AnswerLog(m.events))
  }

  /** `m'` came from `m` without touching a write. */
  predicate SameWrites(m: Manager, m': Manager) {
    && m'.received == m.received && m'.pendingWrites == m.pendingWrites && m'.wire == m.wire
    && m'.now >= m.now && AnswerLog(m'.events) == AnswerLog(m.events)
  }

  lemma SameWritesKeep(m: Manager, m': Manager)
    requires Writes(m) && SameWrites(m, m')
    ensures Writes(m')
  {
  }

  lemma {:induction false} SeqsDropFirst(p: seq<PendingWrite>)
    requires p != []
    ensures Seqs(p) == [p[0].seqNo] + Seqs(p[1..])
  {
    if |p| > 1 {
      SeqsDropFirst(p[..|p| - 1]);
      assert p[1..][..|p| - 2] == p[..|p| - 1][1..];
    }
  }

  lemma {:induction false} SeqsLength(p: seq<PendingWrite>)
    ensures |Seqs(p)| == |p|
  {
    if p != [] {
      SeqsLength(p[..|p| - 1]);
    }
  }

  // ---- Handlers that leave writes alone ----

  lemma EmitSame(m: Manager, e: JkBmsEvent)
    requires AnswerIn(e) == []
    ensures SameWrites(m, Emit(m, e))
  {
  }

  lemma DisconnectSame(m: Manager)
    ensures SameWrites(m, ScheduleReconnect(m)) && SameWrites(m, HandleDisconnect(m))
  {
  }

  lemma PollDataSame(m: Manager, a: Polled)
    ensures SameWrites(m, PollData(m, a).0)
  {
    hide PollData;
    PollDataEffect(m, a);
  }

  lemma PollSame(m: Manager, due: bool, a: Polled)
    ensures SameWrites(m, PollIfDue(m, due, a).0)
  {
    hide HandleDisconnect, PollData, AnswerLog;
    PollDataSame(m, a);
    var (m1, e) := PollData(m, a);
    DisconnectSame(Note(m1, Hard));
    DisconnectSame(CountSoftFailure(m1));
  }

  lemma ResyncSame(m: Manager, a: ConnectAnswers)
    ensures SameWrites(m, Resync(m, a).0)
  {
    hide PollData;
    var (m1, e1) := PollData(m, InfoAnswer(a.info));
    PollDataSame(m, InfoAnswer(a.info));
    var (m2, e2) := PollData(m1, ConfigAnswer(a.config));
    PollDataSame(m1, ConfigAnswer(a.config));
    PollDataSame(m2, OperationalAnswer(a.operational));
  }

  lemma ConnectSame(m: Manager, a: ConnectAnswers)
    ensures SameWrites(m, OnConnect(m, a))
  {
    hide HandleDisconnect, Resync, ScheduleReconnect, AnswerLog;
    if !m.transport && a.open.Ok? {
      var m1 := OnOpened(m, a.open.took);
      var (m2, e) := Resync(m1, a);
      ResyncSame(m1, a);
      DisconnectSame(m2);
      EmitSame(m2.(reconnectAttempt := 0), Connection(Connected));
    } else {
      DisconnectSame(Wait(m, a.open.took));
    }
  }

  lemma PollingSame(m: Manager, a: PollAnswers)
    ensures SameWrites(m, OnRunDataPolling(m, a))
  {
    hide PollIfDue, AnswerLog;
    var m0 := m.(dataPollingScheduled := false);
    var d1 := Due(m0.lastDeviceInfo, DEVICE_INFO_POLL_INTERVAL, m0.now);
    var (m1, ok1) := PollIfDue(m0, d1, InfoAnswer(a.info));
    PollSame(m0, d1, InfoAnswer(a.info));
    var d2 := Due(m1.lastConfig, CONFIG_POLL_INTERVAL, m0.now);
    var (m2, ok2) := PollIfDue(m1, d2, ConfigAnswer(a.config));
    PollSame(m1, d2, ConfigAnswer(a.config));
    var d3 := Due(m2.lastOperational, OPERATIONAL_POLL_INTERVAL, m0.now);
    var (m3, ok3) := PollIfDue(m2, d3, OperationalAnswer(a.operational));
    PollSame(m2, d3, OperationalAnswer(a.operational));
    var d4 := Due(m3.lastAlarms, ALARM_POLL_INTERVAL, m0.now);
    PollSame(m3, d4, AlarmsAnswer(a.alarms));
  }

  lemma WriteErrorSame(m: Manager, e: JkBmsError)
    ensures SameWrites(m, HandleWriteError(m, e))
  {
    hide HandleDisconnect;
    DisconnectSame(Note(m, Hard));
    DisconnectSame(CountSoftFailure(m));
  }

  // ---- Handlers that move writes ----

  /** A write goes to the wire and is either confirmed or still owed an answer. */
  lemma DoWriteEffect(m: Manager, w: PendingWrite, a: WriteAnswers)
    requires m.transport
    ensures var (m', e) := DoWrite(m, w, a);
      && m'.received == m.received && m'.pendingWrites == m.pendingWrites && m'.now >= m.now
      && m'.wire == m.wire + [WireWrite(m.now, w.command, w.seqNo, w.queuedAt)]
      && (e.None? ==> AnswerLog(m'.events) == AnswerLog(m.events) + [Done(w.seqNo)])
      && (e.Some? ==> AnswerLog(m'.events) == AnswerLog(m.events))
  {
  }

  /** Everything in `pending'` waited before or is newer than all that was received. */
  predicate OnlyNewer(received: seq<nat>, pending: seq<nat>, pending': seq<nat>) {
    forall k | k in pending' && k !in pending :: forall r | r in received :: r <= k
  }

  lemma WireOrderKeeps(received: seq<nat>, wire: seq<WireWrite>, pending: seq<nat>,
                       received': seq<nat>, pending': seq<nat>)
    requires WireOrdered(received, wire, pending)
    requires forall x | x in received :: x in received'
    requires Increasing(received') ==> Increasing(received) && OnlyNewer(received, pending, pending')
    ensures WireOrdered(received', wire, pending')
  {
    hide Increasing;
  }

  lemma WireAppend(received: seq<nat>, wire: seq<WireWrite>, pending: seq<nat>, w: WireWrite)
    requires WireOrdered(received, wire, pending) && w.seqNo in received
    requires Increasing(received) ==>
      (w.seqNo in pending || forall r | r in received :: r <= w.seqNo) && forall k | k in pending :: w.seqNo <= k
    ensures WireOrdered(received, wire + [w], pending)
  {
    hide Increasing;
  }

  lemma CommandOrder(received: seq<nat>, wire: seq<WireWrite>, pending: seq<nat>, log: seq<Reply>, n: nat)
    requires Sound(received, log, pending) && WireOrdered(received, wire, pending)
    ensures WireOrdered(received + [n], wire, pending)
    ensures WireOrdered(received + [n], wire, pending + [n])
    ensures Increasing(received + [n]) ==> forall r | r in received :: r < n
  {
    hide Increasing, InOrder;
    if Increasing(received + [n]) {
      NewestIsLargest(received, log, pending, n);
    }
    WireOrderKeeps(received, wire, pending, received + [n], pending);
    WireOrderKeeps(received, wire, pending, received + [n], pending + [n]);
  }

  // ---- What a handler does to the books ----

  lemma RejectMove(now: Instant, received: seq<nat>, wire: seq<WireWrite>, p: seq<PendingWrite>, log: seq<Reply>,
                   n: nat, cause: Cause)
    requires WritesOf(now, received, wire, p, log) && cause != Expired
    ensures WritesOf(now, received + [n], wire, p, log + [Failed(n, cause)])
  {
    hide Sound, WireOrdered;
    CommandOrder(received, wire, Seqs(p), log, n);
    Reject(received, log, Seqs(p), n, cause);
  }

  lemma QueueMove(now: Instant, received: seq<nat>, wire: seq<WireWrite>, p: seq<PendingWrite>, log: seq<Reply>,
                  command: WriteCommand, n: nat)
    requires WritesOf(now, received, wire, p, log) && |p| < PENDING_WRITES_CAP
    ensures WritesOf(now, received + [n], wire, p + [PendingWrite(command, n, now)], log)
  {
    hide Sound, WireOrdered;
    CommandOrder(received, wire, Seqs(p), log, n);
    Queue(received, log, Seqs(p), n);
  }

  /** A write that found the queue empty goes straight to the wire. */
  lemma DirectMove(now: Instant, received: seq<nat>, wire: seq<WireWrite>, log: seq<Reply>,
                   command: WriteCommand, n: nat, later: Instant)
    requires WritesOf(now, received, wire, [], log) && now <= later
    ensures WritesOf(later, received + [n], wire + [WireWrite(now, command, n, now)], [], log + [Done(n)])
    ensures WritesOf(later, received + [n], wire + [WireWrite(now, command, n, now)],
      [PendingWrite(command, n, later)], log)
  {
    hide Sound, WireOrdered, Increasing;
    CommandOrder(received, wire, [], log, n);
    var none: seq<nat> := [];
    assert none + [n] == [n];
    Confirm(received, log, n);
    Queue(received, log, [], n);
    WireAppend(received + [n], wire, [], WireWrite(now, command, n, now));
    WireAppend(received + [n], wire, [n], WireWrite(now, command, n, now));
    assert Seqs([PendingWrite(command, n, later)]) == [n];
  }

  lemma ExpireMove(now: Instant, received: seq<nat>, wire: seq<WireWrite>, p: seq<PendingWrite>, log: seq<Reply>)
    requires WritesOf(now, received, wire, p, log) && p != []
    ensures WritesOf(now, received, wire, p[1..], log + [Failed(p[0].seqNo, Expired)])
  {
    hide Sound, WireOrdered, Increasing;
    SeqsDropFirst(p);
    assert Seqs(p)[1..] == Seqs(p[1..]);
    Leave(received, log, Seqs(p), Failed(p[0].seqNo, Expired));
    WireOrderKeeps(received, wire, Seqs(p), received, Seqs(p[1..]));
  }

  lemma HeadOnWire(received: seq<nat>, wire: seq<WireWrite>, p: seq<PendingWrite>, log: seq<Reply>, w: WireWrite)
    requires Sound(received, log, Seqs(p)) && WireOrdered(received, wire, Seqs(p))
    requires p != [] && w.seqNo == p[0].seqNo
    ensures WireOrdered(received, wire + [w], Seqs(p)) && WireOrdered(received, wire + [w], Seqs(p[1..]))
  {
    hide Increasing, InOrder, WireOrdered;
    SeqsDropFirst(p);
    KnownIsReceived(received, log, Seqs(p), w.seqNo);
    if Increasing(received) {
      HeadLeads(received, p, log);
    }
    WireAppend(received, wire, Seqs(p), w);
    WireOrderKeeps(received, wire + [w], Seqs(p), received, Seqs(p[1..]));
  }

  /** The head of the queue goes to the wire: it is confirmed and leaves, or it stays. */
  lemma AttemptMove(now: Instant, received: seq<nat>, wire: seq<WireWrite>, p: seq<PendingWrite>, log: seq<Reply>,
                    later: Instant)
    requires WritesOf(now, received, wire, p, log) && p != [] && !ExpiredAt(p[0], now) && now <= later
    ensures WritesOf(later, received, wire + [WireWrite(now, p[0].command, p[0].seqNo, p[0].queuedAt)], p[1..],
      log + [Done(p[0].seqNo)])
    ensures WritesOf(later, received, wire + [WireWrite(now, p[0].command, p[0].seqNo, p[0].queuedAt)], p, log)
  {
    hide Sound, WireOrdered;
    HeadOnWire(received, wire, p, log, WireWrite(now, p[0].command, p[0].seqNo, p[0].queuedAt));
    SeqsDropFirst(p);
    assert Seqs(p)[1..] == Seqs(p[1..]);
    Leave(received, log, Seqs(p), Done(p[0].seqNo));
  }

  lemma HeadLeads(received: seq<nat>, p: seq<PendingWrite>, log: seq<Reply>)
    requires Sound(received, log, Seqs(p)) && Increasing(received) && p != []
    ensures forall k | k in Seqs(p) :: p[0].seqNo <= k
  {
    SeqsDropFirst(p);
    forall k | k in Seqs(p) ensures p[0].seqNo <= k {
      HeadIsLeast(Drained(log), Seqs(p), k);
    }
  }

  lemma RejectionKeeps(m: Manager, n: nat, cause: Cause)
    requires Writes(m) && cause != Expired
    ensures Writes(Emit(m.(received := m.received + [n]), WriteError(n, cause)))
  {
    hide WritesOf;
    RejectMove(m.now, m.received, m.wire, m.pendingWrites, AnswerLog(m.events), n, cause);
  }

  lemma QueueingKeeps(m: Manager, command: WriteCommand, n: nat)
    requires Writes(m) && |m.pendingWrites| < PENDING_WRITES_CAP
    ensures Writes(m.(received := m.received + [n],
      pendingWrites := m.pendingWrites + [PendingWrite(command, n, m.now)]))
  {
    hide WritesOf;
    QueueMove(m.now, m.received, m.wire, m.pendingWrites, AnswerLog(m.events), command, n);
  }

  lemma DirectKeeps(m: Manager, command: WriteCommand, n: nat, a: WriteAnswers)
    requires Writes(m) && m.transport && m.pendingWrites == []
    ensures var (m1, e) := DoWrite(m.(received := m.received + [n]), PendingWrite(command, n, m.now), a);
      && (e.None? ==> Writes(m1))
      && (e.Some? ==> Writes(m1.(pendingWrites := m1.pendingWrites + [PendingWrite(command, n, m1.now)])))
  {
    hide WritesOf, DoWrite;
    var m0 := m.(received := m.received + [n]);
    var (m1, e) := DoWrite(m0, PendingWrite(command, n, m.now), a);
    DoWriteEffect(m0, PendingWrite(command, n, m.now), a);
    DirectMove(m.now, m.received, m.wire, AnswerLog(m.events), command, n, m1.now);
    assert m1.pendingWrites + [PendingWrite(command, n, m1.now)] == [PendingWrite(command, n, m1.now)];
  }

  lemma CommandKeeps(m: Manager, command: WriteCommand, n: nat, a: WriteAnswers)
    requires Writes(m)
    ensures Writes(OnWriteCommand(m, command, n, a))
  {
    hide Writes, DoWrite, HandleWriteError, ScheduleRetryNow;
    var m0 := m.(received := m.received + [n]);
    if m.transport && m.pendingWrites == [] {
      DirectKeeps(m, command, n, a);
      var (m1, e) := DoWrite(m0, PendingWrite(command, n, m.now), a);
      if e.Some? {
        var m2 := m1.(pendingWrites := m1.pendingWrites + [PendingWrite(command, n, m1.now)]);
        WriteErrorSame(m2, e.value);
        SameWritesKeep(m2, HandleWriteError(m2, e.value));
      }
    } else if ReconnectCapped(m0) {
      RejectionKeeps(m, n, Capped);
    } else if |m.pendingWrites| >= PENDING_WRITES_CAP {
      RejectionKeeps(m, n, QueueFull);
    } else {
      QueueingKeeps(m, command, n);
      var m1 := m0.(pendingWrites := m0.pendingWrites + [PendingWrite(command, n, m0.now)]);
      RetrySame(m1);
      SameWritesKeep(m1, ScheduleRetryNow(m1));
    }
  }

  lemma RetrySame(m: Manager)
    ensures SameWrites(m, ScheduleRetryNow(m))
  {
  }

  // ---- Eviction ----

  /** Every write that has waited ten seconds at most, wherever it stands in the queue. */
  function StillFresh(p: seq<PendingWrite>, now: Instant): seq<PendingWrite> {
    if p == [] then []
    else (if now <= p[0].queuedAt + 10 * SECOND then [p[0]] else []) + StillFresh(p[1..], now)
  }

  lemma {:induction false} SortedIsFresh(p: seq<PendingWrite>, now: Instant)
    requires forall i, j | 0 <= i < j < |p| :: p[i].queuedAt <= p[j].queuedAt
    requires p != [] ==> !ExpiredAt(p[0], now)
    ensures StillFresh(p, now) == p
  {
    if p != [] {
      SortedIsFresh(p[1..], now);
    }
  }

  /** Head-only eviction drops exactly the expired writes, and answers each. */
  lemma {:induction false} EvictionIsFiltering(m: Manager)
    requires QueueDiscipline(m.now, m.pendingWrites)
    ensures EvictExpired(m).pendingWrites == StillFresh(m.pendingWrites, m.now)
    decreases |m.pendingWrites|
  {
    if m.pendingWrites != [] && ExpiredAt(m.pendingWrites[0], m.now) {
      var rest := m.(pendingWrites := m.pendingWrites[1..]);
      EvictionIsFiltering(Emit(rest, WriteError(m.pendingWrites[0].seqNo, Expired)));
    } else {
      SortedIsFresh(m.pendingWrites, m.now);
    }
  }

  lemma EvictOneKeeps(m: Manager)
    requires Writes(m) && m.pendingWrites != []
    ensures Writes(Emit(m.(pendingWrites := m.pendingWrites[1..]), WriteError(m.pendingWrites[0].seqNo, Expired)))
  {
    hide WritesOf;
    ExpireMove(m.now, m.received, m.wire, m.pendingWrites, AnswerLog(m.events));
  }

  lemma {:induction false} EvictKeeps(m: Manager)
    requires Writes(m)
    ensures var m' := EvictExpired(m);
      && Writes(m') && m'.transport == m.transport && m'.now == m.now
      && (m'.pendingWrites != [] ==> !ExpiredAt(m'.pendingWrites[0], m'.now))
    decreases |m.pendingWrites|
  {
    hide Writes, EvictExpired;
    if m.pendingWrites != [] && ExpiredAt(m.pendingWrites[0], m.now) {
      EvictOneKeeps(m);
      EvictStep(m);
      EvictKeeps(Emit(m.(pendingWrites := m.pendingWrites[1..]), WriteError(m.pendingWrites[0].seqNo, Expired)));
    } else {
      EvictDone(m);
    }
  }

  lemma RetryKeeps(m: Manager, a: WriteAnswers)
    requires Writes(m)
    ensures Writes(OnRetryWrites(m, a))
  {
    hide HandleWriteError, DoWrite, WritesOf, EvictExpired, SameWrites;
    if m.transport {
      var m0 := m.(retryWritesScheduled := false);
      var m1 := EvictExpired(m0);
      EvictKeeps(m0);
      if m1.pendingWrites != [] {
        var w := m1.pendingWrites[0];
        var (m2, e) := DoWrite(m1, w, a);
        DoWriteEffect(m1, w, a);
        AttemptMove(m1.now, m1.received, m1.wire, m1.pendingWrites, AnswerLog(m1.events), m2.now);
        if e.Some? {
          WriteErrorSame(m2, e.value);
          SameWritesKeep(m2, HandleWriteError(m2, e.value));
        }
      }
    }
  }

  /** Every turn of the actor keeps every write property. */
  lemma StepWrites(m: Manager, input: Input)
    requires Writes(m)
    ensures Writes(Step(m, input))
  {
    hide Writes, OnConnect, OnRunDataPolling, OnRetryWrites, OnWriteCommand;
    match input
    case Tick(d) => SameWritesKeep(m, Wait(m, d));
    case Command(command, n, write) => CommandKeeps(m, command, n, write);
    case Internal(answers) =>
      if m.internalQueue != [] {
        var popped := m.(internalQueue := m.internalQueue[1..]);
        SameWritesKeep(m, popped);
        InternalKeeps(popped, m.internalQueue[0], answers);
      }
    case Timer(i, answers) =>
      if i < |m.delayQueue| && m.delayQueue[i].due <= m.now {
        var popped := m.(delayQueue := RemoveAt(m.delayQueue, i));
        SameWritesKeep(m, popped);
        InternalKeeps(popped, m.delayQueue[i].command, answers);
      }
  }

  lemma InternalKeeps(m: Manager, c: InternalCommand, a: Answers)
    requires Writes(m)
    ensures Writes(HandleInternal(m, c, a))
  {
    hide Writes, SameWrites, OnConnect, OnRunDataPolling, OnRetryWrites;
    match c
    case Connect =>
      ConnectSame(m, a.connect);
      SameWritesKeep(m, OnConnect(m, a.connect));
    case RunDataPolling =>
      PollingSame(m, a.poll);
      SameWritesKeep(m, OnRunDataPolling(m, a.poll));
    case RetryWrites => RetryKeeps(m, a.write);
  }

  lemma BootWrites(m: Manager, boot: ConnectAnswers)
    requires m.received == [] && m.events == [] && m.pendingWrites == [] && m.wire == []
    ensures Writes(OnConnect(m, boot))
  {
    hide OnConnect;
    ConnectSame(m, boot);
    SameWritesKeep(m, OnConnect(m, boot));
  }
}
