/**
 * The manager over the wire protocol: its talks with the line are calls of the protocol object, so
 * what it emits comes from the bytes the BMS sent for the request in question.
 */
module ManagerLine {
  import opened Wrappers
  import opened JkBmsTypes
  import opened ManagerSpec
  import opened ManagerTalks
  import opened ManagerRuns
  import opened ModbusCrc
  import opened Codec
  import opened ProtocolSpec
  import opened Alignment

  /** What the fields of an accepted frame say, for each kind of frame. */
  datatype Decoders = Decoders(
    info: seq<byte> -> DeviceInfo, config: seq<byte> -> ConfigOptions, operational: seq<byte> -> OperationalData)

  /** The manager was answered what the protocol read. */
  predicate Agrees<T(==), U>(a: Answer<T>, r: Outcome<U>, decode: U -> T) {
    match r
    case Got(v) => a.Ok? && a.value == decode(v)
    case Fails(e) => a.Err? && a.error == e
  }

  predicate IsPoll<T(==)>(a: Answer<T>, w: Wire, slave: byte, reg: bv16, c: ProtocolCall, decode: seq<byte> -> T) {
    c.Poll? && c.reg == reg && Agrees(a, PollFrame(w, slave, reg, c.reply, c.fates).1, decode)
  }

  /** The talk is this protocol call, made on this line. */
  predicate Carries(talk: Talk, w: Wire, slave: byte, c: ProtocolCall, d: Decoders) {
    match talk
    case Opening => c.Reopen?
    case Asking(InfoAnswer(a)) => IsPoll(a, w, slave, TRIGGER_DEVICE_INFO, c, d.info)
    case Asking(ConfigAnswer(a)) => IsPoll(a, w, slave, TRIGGER_CONFIG, c, d.config)
    case Asking(OperationalAnswer(a)) => IsPoll(a, w, slave, TRIGGER_OPERATIONAL, c, d.operational)
    case Asking(AlarmsAnswer(a)) =>
      c.Alarm? && Agrees(a, PollAlarms(w, slave, c.reply, c.fates).1, (v: bv32) => v as nat)
    case Switching(_, command, a) =>
      c.Write? && c.command == command && Agrees(a, WriteSwitch(w, slave, command, c.reply, c.fates).1, (x: ()) => x)
  }

  ghost predicate Carried(talks: seq<Talk>, slave: byte, calls: seq<ProtocolCall>, d: Decoders) {
    && |talks| == |calls|
    && forall i | 0 <= i < |talks| :: Carries(talks[i], AfterCalls(slave, calls[..i]), slave, calls[i], d)
  }

  lemma {:induction false} PrefixDocumented(slave: byte, calls: seq<ProtocolCall>, i: nat)
    requires AllDocumented(slave, calls) && i < |calls|
    ensures AllDocumented(slave, calls[..i]) && Documented(AfterCalls(slave, calls[..i]), calls[i])
    decreases |calls|
  {
    hide Documented, AfterCalls;
    if i < |calls| - 1 {
      PrefixDocumented(slave, calls[..|calls| - 1], i);
      assert calls[..|calls| - 1][..i] == calls[..i];
    }
  }

  /** A frame poll that succeeded read the frame sent for it. */
  predicate FrameFor(c: ProtocolCall, reg: bv16) {
    c.Poll? && c.reg == reg && |c.reply| == REPLY_MAX && IsFrame(c.reply[..FRAME_LEN])
  }

  /** The frame sent for that very request says `data`. */
  predicate FrameSays(c: ProtocolCall, data: JkBmsData, d: Decoders) {
    match data
    case Info(v) => FrameFor(c, TRIGGER_DEVICE_INFO) && v == d.info(c.reply[..FRAME_LEN])
    case Config(v) => FrameFor(c, TRIGGER_CONFIG) && v == d.config(c.reply[..FRAME_LEN])
    case Operational(v) => FrameFor(c, TRIGGER_OPERATIONAL) && v == d.operational(c.reply[..FRAME_LEN])
    case Alarms(_) => false
  }

  lemma PollReadsItsFrame<T>(a: Answer<T>, w: Wire, slave: byte, reg: bv16, c: ProtocolCall, decode: seq<byte> -> T)
    requires IsPoll(a, w, slave, reg, c, decode) && Aligned(w) && Documented(w, c) && a.Ok?
    ensures FrameFor(c, reg) && a.value == decode(c.reply[..FRAME_LEN])
  {
    hide PollFrame, Drainable, IsFrame;
    PollKeepsAlignment(w, slave, reg, c.reply, c.fates);
  }

  lemma TalkSays(p: Polled, w: Wire, slave: byte, c: ProtocolCall, d: Decoders)
    requires Carries(Asking(p), w, slave, c, d) && Aligned(w) && Documented(w, c)
    requires !p.AlarmsAnswer? && p.Result().Ok?
    ensures FrameSays(c, p.Result().value, d)
  {
    hide IsPoll, Documented, Aligned, FrameFor;
    match p
    case InfoAnswer(a) => PollReadsItsFrame(a, w, slave, TRIGGER_DEVICE_INFO, c, d.info);
    case ConfigAnswer(a) => PollReadsItsFrame(a, w, slave, TRIGGER_CONFIG, c, d.config);
    case OperationalAnswer(a) => PollReadsItsFrame(a, w, slave, TRIGGER_OPERATIONAL, c, d.operational);
  }

  /** Where the line stands when the `i`-th talk begins. */
  lemma TalkBegins(talks: seq<Talk>, slave: byte, calls: seq<ProtocolCall>, d: Decoders, i: nat)
    requires Carried(talks, slave, calls, d) && AllDocumented(slave, calls) && i < |talks|
    ensures i < |calls|
    ensures var w := AfterCalls(slave, calls[..i]);
      Carries(talks[i], w, slave, calls[i], d) && Aligned(w) && Documented(w, calls[i])
  {
    hide AfterCalls, AllDocumented, Carries, Aligned, Documented;
    PrefixDocumented(slave, calls, i);
    AlwaysAligned(slave, calls[..i]);
  }

  lemma PollSays(talks: seq<Talk>, slave: byte, calls: seq<ProtocolCall>, d: Decoders, i: nat)
    requires Carried(talks, slave, calls, d) && AllDocumented(slave, calls) && i < |talks|
    requires talks[i].Asking? && !talks[i].poll.AlarmsAnswer? && talks[i].poll.Result().Ok?
    ensures i < |calls| && FrameSays(calls[i], talks[i].poll.Result().value, d)
  {
    hide *;
    TalkBegins(talks, slave, calls, d, i);
    TalkSays(talks[i].poll, AfterCalls(slave, calls[..i]), slave, calls[i], d);
  }

  /** Every reading the manager emits is decoded from the frame sent for the poll that asked for it. */
  lemma ReadingsAreTheirOwn(boot: ConnectAnswers, inputs: seq<Input>, slave: byte, calls: seq<ProtocolCall>,
                            d: Decoders, k: nat) returns (i: nat)
    requires Carried(Run(boot, inputs).talks, slave, calls, d) && AllDocumented(slave, calls)
    requires k < |Run(boot, inputs).events|
    requires var e := Run(boot, inputs).events[k].event; e.Data? && !e.data.Alarms?
    ensures i < |calls| && FrameSays(calls[i], Run(boot, inputs).events[k].event.data, d)
  {
    hide Run, AllDocumented, Carried, FrameSays;
    var m := Run(boot, inputs);
    EventsAreBacked(boot, inputs, k);
    i :| GotData(m.talks, i, m.events[k].event.data);
    PollSays(m.talks, slave, calls, d, i);
  }

  lemma SameLength(talks: seq<Talk>, slave: byte, calls: seq<ProtocolCall>, d: Decoders)
    requires Carried(talks, slave, calls, d)
    ensures |talks| == |calls|
  {
  }

  /** That switch command was sent under number `n`, and its own acknowledgement accepted it. */
  predicate Acknowledged(talk: Talk, slave: byte, c: ProtocolCall, n: nat) {
    && talk.Switching? && talk.seqNo == n
    && c.Write? && c.command == talk.command && |c.reply| == ACK_LEN && DecodeWriteAck(slave, c.reply)
  }

  lemma WriteIsAcknowledged(talks: seq<Talk>, slave: byte, calls: seq<ProtocolCall>, d: Decoders, i: nat)
    requires Carried(talks, slave, calls, d) && AllDocumented(slave, calls) && i < |talks|
    requires talks[i].Switching? && talks[i].answer.Ok?
    ensures i < |calls| && Acknowledged(talks[i], slave, calls[i], talks[i].seqNo)
  {
    hide WriteSwitch, AfterCalls, AllDocumented, Drainable, DecodeWriteAck, Carried;
    TalkBegins(talks, slave, calls, d, i);
    WriteKeepsAlignment(AfterCalls(slave, calls[..i]), slave, calls[i].command, calls[i].reply, calls[i].fates);
  }

  /**
   * Every confirmation comes from a write whose own acknowledgement accepted it, and carries the
   * frame sent for the configuration poll right after it.
   */
  lemma ConfirmationsAreTheirOwn(boot: ConnectAnswers, inputs: seq<Input>, slave: byte, calls: seq<ProtocolCall>,
                                 d: Decoders, k: nat) returns (i: nat)
    requires Carried(Run(boot, inputs).talks, slave, calls, d) && AllDocumented(slave, calls)
    requires k < |Run(boot, inputs).events| && Run(boot, inputs).events[k].event.WriteConfirmation?
    ensures var m := Run(boot, inputs); var e := m.events[k].event;
      && i + 1 < |calls| == |m.talks|
      && Acknowledged(m.talks[i], slave, calls[i], e.seqNo)
      && FrameSays(calls[i + 1], Config(e.readback), d)
  {
    hide Run, AllDocumented, Carried, FrameSays, Acknowledged;
    var m := Run(boot, inputs);
    var e := m.events[k].event;
    EventsAreBacked(boot, inputs, k);
    i :| ReadBack(m.talks, i, e.seqNo, e.readback);
    WriteIsAcknowledged(m.talks, slave, calls, d, i);
    PollSays(m.talks, slave, calls, d, i + 1);
    SameLength(m.talks, slave, calls, d);
  }

  // ---- Alarms ----

  function ReplyTo(c: ProtocolCall): seq<byte> {
    match c
    case Poll(_, reply, _) => reply
    case Write(_, reply, _) => reply
    case Alarm(reply, _) => reply
    case Reopen(_) => []
  }

  predicate Succeeded(t: Talk) {
    match t
    case Opening => true
    case Asking(p) => p.Result().Ok?
    case Switching(_, _, a) => a.Ok?
  }

  /** The call read what it read, and left only bytes sent for it. */
  predicate LeavesItsOwn(w: Wire, slave: byte, c: ProtocolCall, succeeded: bool) {
    var w' := AfterCall(w, slave, c);
    !c.Alarm? && !c.Reopen? && IsEnd(w'.pipe, ReplyTo(c)) && (succeeded ==> !w'.needsDrain)
  }

  lemma PollLeavesItsOwn<T>(a: Answer<T>, w: Wire, slave: byte, reg: bv16, c: ProtocolCall, decode: seq<byte> -> T)
    requires IsPoll(a, w, slave, reg, c, decode) && Aligned(w) && Documented(w, c)
    ensures LeavesItsOwn(w, slave, c, a.Ok?)
  {
    hide PollFrame, Drainable, IsFrame, IsEnd, Aligned;
    NothingIsAnEnd(c.reply);
    PollKeepsAlignment(w, slave, reg, c.reply, c.fates);
    PollLeavesEnd(w, slave, reg, c.reply, c.fates);
  }

  lemma WriteLeavesItsOwn(talk: Talk, w: Wire, slave: byte, c: ProtocolCall, d: Decoders)
    requires Carries(talk, w, slave, c, d) && Aligned(w) && Documented(w, c) && talk.Switching?
    ensures LeavesItsOwn(w, slave, c, talk.answer.Ok?)
  {
    hide WriteSwitch, Drainable, DecodeWriteAck, IsEnd, Aligned;
    NothingIsAnEnd(c.reply);
    WriteKeepsAlignment(w, slave, c.command, c.reply, c.fates);
    WriteLeavesEnd(w, slave, c.command, c.reply, c.fates);
  }

  lemma CallLeavesItsOwn(talk: Talk, w: Wire, slave: byte, c: ProtocolCall, d: Decoders)
    requires Carries(talk, w, slave, c, d) && Aligned(w) && Documented(w, c) && Drains(talk)
    ensures LeavesItsOwn(w, slave, c, Succeeded(talk))
  {
    hide IsPoll, Documented, Aligned, LeavesItsOwn;
    match talk
    case Switching(_, _, _) => WriteLeavesItsOwn(talk, w, slave, c, d);
    case Asking(InfoAnswer(a)) => PollLeavesItsOwn(a, w, slave, TRIGGER_DEVICE_INFO, c, d.info);
    case Asking(ConfigAnswer(a)) => PollLeavesItsOwn(a, w, slave, TRIGGER_CONFIG, c, d.config);
    case Asking(OperationalAnswer(a)) => PollLeavesItsOwn(a, w, slave, TRIGGER_OPERATIONAL, c, d.operational);
  }

  /** After a call that drains, the line holds nothing but the end of the reply to that call. */
  lemma DrainLeavesItsOwn(talks: seq<Talk>, slave: byte, calls: seq<ProtocolCall>, d: Decoders, i: nat)
    requires Carried(talks, slave, calls, d) && AllDocumented(slave, calls)
    requires i < |talks| && Drains(talks[i])
    ensures i < |calls| && !calls[i].Alarm? && !calls[i].Reopen?
    ensures var w := AfterCalls(slave, calls[..i + 1]);
      IsEnd(w.pipe, ReplyTo(calls[i])) && (Succeeded(talks[i]) ==> !w.needsDrain)
  {
    hide *;
    TalkBegins(talks, slave, calls, d, i);
    CallLeavesItsOwn(talks[i], AfterCalls(slave, calls[..i]), slave, calls[i], d);
    LeftBehind(AfterCalls(slave, calls[..i]), slave, calls[i], Succeeded(talks[i]));
    OneMoreCall(slave, calls, i);
  }

  lemma LeftBehind(w: Wire, slave: byte, c: ProtocolCall, succeeded: bool)
    requires LeavesItsOwn(w, slave, c, succeeded)
    ensures var w' := AfterCall(w, slave, c);
      !c.Alarm? && !c.Reopen? && IsEnd(w'.pipe, ReplyTo(c)) && (succeeded ==> !w'.needsDrain)
  {
  }

  lemma NothingIsAnEnd(s: seq<byte>)
    ensures IsEnd([], s)
  {
  }

  lemma OneMoreCall(slave: byte, calls: seq<ProtocolCall>, i: nat)
    requires i < |calls|
    ensures AfterCalls(slave, calls[..i + 1]) == AfterCall(AfterCalls(slave, calls[..i]), slave, calls[i])
  {
    hide AfterCall;
    assert calls[..i + 1][..i] == calls[..i];
  }

  /** The line holds nothing but the end of the reply to the call before, which was no alarm poll. */
  predicate FollowsDrain(slave: byte, calls: seq<ProtocolCall>, i: nat) {
    && 0 < i < |calls| && !calls[i - 1].Alarm? && !calls[i - 1].Reopen?
    && IsEnd(AfterCalls(slave, calls[..i]).pipe, ReplyTo(calls[i - 1]))
  }

  predicate SaysAlarms(slave: byte, c: ProtocolCall, raw: nat) {
    raw < 0x1_0000_0000 && ReplyTo(c) == AlarmResponse(slave, raw as bv32)
  }

  predicate IsOwnAlarm(talks: seq<Talk>, slave: byte, calls: seq<ProtocolCall>, i: nat) {
    && FollowsDrain(slave, calls, i) && |talks| == |calls| && IsAlarm(talks[i])
    && (Succeeded(talks[i]) && Succeeded(talks[i - 1]) ==> SaysAlarms(slave, calls[i], talks[i].poll.alarms.value))
  }

  /**
   * The manager never takes an earlier alarm response for the current one: when it asks for alarms,
   * the line holds nothing but the end of the reply to a frame poll or a switch write just before.
   * If that call succeeded, an alarm poll that succeeds has read its own response.
   */
  lemma AlarmsAreNotStale(boot: ConnectAnswers, inputs: seq<Input>, slave: byte, calls: seq<ProtocolCall>, d: Decoders,
                          i: nat)
    requires Carried(Run(boot, inputs).talks, slave, calls, d) && AllDocumented(slave, calls)
    requires i < |Run(boot, inputs).talks| && IsAlarm(Run(boot, inputs).talks[i])
    ensures IsOwnAlarm(Run(boot, inputs).talks, slave, calls, i)
  {
    hide Run, AfterCalls, AllDocumented, PollAlarms, AlarmResponse, IsEnd;
    var talks := Run(boot, inputs).talks;
    AlarmsComeAfterDrains(boot, inputs, i);
    DrainLeavesItsOwn(talks, slave, calls, d, i - 1);
    TalkBegins(talks, slave, calls, d, i);
    var w := AfterCalls(slave, calls[..i]);
    AlarmKeepsAlignment(w, slave, calls[i].reply, calls[i].fates);
    var r := PollAlarms(w, slave, calls[i].reply, calls[i].fates).1;
    if r.Got? {
      assert (r.value as nat) as bv32 == r.value;
    }
  }
}
