/**
 * The wire choreography of src/jkbms/protocol.rs: requests, fixed-size reads with a timeout, and
 * the drain that restores alignment after a soft error.  `pipe` holds the bytes the BMS has sent
 * and nobody has read, in order; how many of them arrive before a deadline is not ours to choose.
 */
module ProtocolSpec {
  import opened Wrappers
  import opened JkBmsTypes
  import opened ModbusCrc
  import opened Codec

  const DRAIN_MAX_BYTES: nat := 4096
  const DRAIN_CHUNK: nat := 64

  datatype Wire = Wire(pipe: seq<byte>, needsDrain: bool, sent: seq<seq<byte>>)

  datatype Outcome<+T> = Got(value: T) | Fails(error: JkBmsError)

  /** How many bytes arrive before the deadline, or before the port breaks. */
  datatype ReadFate = Arrives(n: nat) | Breaks(n: nat)

  datatype SendFate = Sends | SendFails(timedOut: bool)

  /** One read of the drain: bytes nobody asked for join the line, and so many are there to be read. */
  datatype Pass = Pass(unasked: seq<byte>, available: nat)

  /** What happens on the line during one call: every read the drain may make, and so on. */
  datatype Fates = Fates(drain: nat -> Pass, send: SendFate, first: ReadFate, second: ReadFate)

  /** A read that times out has still swallowed what did arrive. */
  function ReadExact(pipe: seq<byte>, n: nat, fate: ReadFate): (seq<byte>, Outcome<seq<byte>>) {
    match fate
    case Breaks(k) => (pipe[Min(k, |pipe|)..], Fails(Io(false)))
    case Arrives(k) =>
      var got := Min(k, |pipe|);
      if got >= n then (pipe[n..], Got(pipe[..n])) else (pipe[got..], Fails(Io(true)))
  }

  /** The BMS answers with `reply`, whenever it gets there. */
  function Exchange(w: Wire, req: seq<byte>, n: nat, reply: seq<byte>, send: SendFate, fate: ReadFate)
    : (Wire, Outcome<seq<byte>>)
  {
    var w1 := w.(pipe := w.pipe + reply, sent := w.sent + [req]);
    match send
    case SendFails(timedOut) => (w1, Fails(Io(timedOut)))
    case Sends =>
      var (pipe, r) := ReadExact(w1.pipe, n, fate);
      (w1.(pipe := pipe), r)
  }

  function Taken(pipe: seq<byte>, available: nat): (n: nat)
    ensures n <= available && n <= 64 && n <= |pipe| && (n == available || n == 64 || n == |pipe|)
  {
    Min(Min(available, DRAIN_CHUNK), |pipe|)
  }

  /** Reads up to 64 bytes at a time until one returns nothing or the cap is reached. */
  function DrainStale(pipe: seq<byte>, total: nat, i: nat, passes: nat -> Pass): (seq<byte>, nat)
    decreases DRAIN_MAX_BYTES - total
  {
    if total >= DRAIN_MAX_BYTES then (pipe, total) else
    var line := pipe + passes(i).unasked;
    var n := Taken(line, passes(i).available);
    if n == 0 then (line, total) else DrainStale(line[n..], total + n, i + 1, passes)
  }

  lemma DrainStep(pipe: seq<byte>, total: nat, i: nat, passes: nat -> Pass)
    requires total < DRAIN_MAX_BYTES
    ensures var line := pipe + passes(i).unasked; var n := Taken(line, passes(i).available);
      DrainStale(pipe, total, i, passes) ==
        if n == 0 then (line, total) else DrainStale(line[n..], total + n, i + 1, passes)
  {
  }

  lemma DrainDone(pipe: seq<byte>, total: nat, i: nat, passes: nat -> Pass)
    requires total >= DRAIN_MAX_BYTES
    ensures DrainStale(pipe, total, i, passes) == (pipe, total)
  {
  }

  function DrainIfNeeded(w: Wire, passes: nat -> Pass): Wire {
    if w.needsDrain then w.(pipe := DrainStale(w.pipe, 0, 0, passes).0, needsDrain := false) else w
  }

  function TriggerFrame(w: Wire, req: seq<byte>, reply: seq<byte>, f: Fates): (Wire, Outcome<seq<byte>>) {
    var w1 := DrainIfNeeded(w, f.drain);
    var (w2, frame) := Exchange(w1, req, FRAME_LEN, reply, f.send, f.first);
    if frame.Fails? then (w2, frame) else
    var (pipe, ack) := ReadExact(w2.pipe, ACK_LEN, f.second);
    (w2.(pipe := pipe), if ack.Fails? then Fails(ack.error) else frame)
  }

  /** A timeout or a parse error; a hard error has no use for a drain, the port is about to go. */
  predicate IsSoft(e: JkBmsError) {
    (e.Io? && e.timedOut) || e.Parse?
  }

  function NoteSoft<T>(w: Wire, r: Outcome<T>): Wire {
    if r.Fails? && IsSoft(r.error) then w.(needsDrain := true) else w
  }

  /** Polls one of the three frames; decoding starts with the frame check. */
  function PollFrame(w: Wire, slave: byte, reg: bv16, reply: seq<byte>, f: Fates): (Wire, Outcome<seq<byte>>) {
    var (w1, frame) := TriggerFrame(w, WithCrc(TriggerBody(slave, reg)), reply, f);
    var r := if frame.Got? && !IsFrame(frame.value) then Fails(Parse) else frame;
    (NoteSoft(w1, r), r)
  }

  /** Alarm polls do not drain first. */
  function PollAlarms(w: Wire, slave: byte, reply: seq<byte>, f: Fates): (Wire, Outcome<bv32>) {
    var (w1, rsp) := Exchange(w, WithCrc(AlarmReadBody(slave)), ALARM_RSP_LEN, reply, f.send, f.first);
    var r :=
      if rsp.Fails? then Fails(rsp.error)
      else if DecodedAlarm(slave, rsp.value).None? then Fails(Parse)
      else Got(DecodedAlarm(slave, rsp.value).value);
    (NoteSoft(w1, r), r)
  }

  function WriteSwitch(w: Wire, slave: byte, command: WriteCommand, reply: seq<byte>, f: Fates): (Wire, Outcome<()>) {
    var w1 := DrainIfNeeded(w, f.drain);
    var (w2, ack) := Exchange(w1, WithCrc(CommandBody(slave, command)), ACK_LEN, reply, f.send, f.first);
    var r :=
      if ack.Fails? then Fails(ack.error)
      else if !DecodeWriteAck(slave, ack.value) then Fails(Parse)
      else Got(());
    (NoteSoft(w2, r), r)
  }
}

/** Requests and responses stay paired, however late, short or damaged the responses are. */
module Alignment {
  import opened Wrappers
  import opened JkBmsTypes
  import opened ModbusCrc
  import opened Codec
  import opened ProtocolSpec

  /** The most a documented response holds: a frame and its trailing acknowledgement. */
  const REPLY_MAX: nat := FRAME_LEN + ACK_LEN

  predicate Aligned(w: Wire) {
    w.pipe != [] ==> w.needsDrain
  }

  /** A drain that is owed meets at most 4096 late bytes, all of them on the line before it ends. */
  predicate Drainable(w: Wire, passes: nat -> Pass) {
    w.needsDrain ==> |w.pipe| <= 4096 && Prompt(w.pipe, 0, passes)
  }

  /** No read comes back empty while late bytes are due, and the BMS sends nothing unasked. */
  predicate Prompt(pipe: seq<byte>, i: nat, passes: nat -> Pass)
    decreases |pipe|
  {
    && passes(i).unasked == []
    && (pipe != [] ==>
      passes(i).available > 0 && Prompt(pipe[Taken(pipe, passes(i).available)..], i + 1, passes))
  }

  lemma {:induction false} DrainEmpties(pipe: seq<byte>, total: nat, i: nat, passes: nat -> Pass)
    requires Prompt(pipe, i, passes) && total + |pipe| <= DRAIN_MAX_BYTES
    ensures DrainStale(pipe, total, i, passes) == ([], total + |pipe|)
    decreases |pipe|
  {
    hide Taken, DrainStale;
    assert pipe + [] == pipe;
    if pipe != [] {
      DrainStep(pipe, total, i, passes);
      var n := Taken(pipe, passes(i).available);
      DrainEmpties(pipe[n..], total + n, i + 1, passes);
    } else if total < DRAIN_MAX_BYTES {
      DrainStep(pipe, total, i, passes);
    } else {
      DrainDone(pipe, total, i, passes);
    }
  }

  lemma DrainedIsEmpty(w: Wire, passes: nat -> Pass)
    requires Aligned(w) && Drainable(w, passes)
    ensures DrainIfNeeded(w, passes) == w.(pipe := [], needsDrain := false)
  {
    if w.needsDrain {
      DrainEmpties(w.pipe, 0, 0, passes);
    }
  }

  /** A hard error costs the port, so what was on its way is gone. */
  function PortLost<T>(w: Wire, r: Outcome<T>): Wire {
    if r.Fails? && !IsSoft(r.error) then w.(pipe := []) else w
  }

  lemma ExchangeOnEmpty(w: Wire, req: seq<byte>, n: nat, reply: seq<byte>, send: SendFate, fate: ReadFate)
    requires w.pipe == []
    ensures var (w', r) := Exchange(w, req, n, reply, send, fate);
      && |w'.pipe| <= |reply| && w'.needsDrain == w.needsDrain && (r.Fails? ==> r.error.Io?)
      && (r.Got? ==> |reply| >= n && r.value == reply[..n] && w'.pipe == reply[n..])
  {
    assert [] + reply == reply;
  }

  /** A successful poll returns the frame sent for that very request, and leaves nothing behind. */
  lemma PollKeepsAlignment(w: Wire, slave: byte, reg: bv16, reply: seq<byte>, f: Fates)
    requires Aligned(w) && |reply| <= REPLY_MAX && Drainable(w, f.drain)
    ensures var (w', r) := PollFrame(w, slave, reg, reply, f);
      && Aligned(PortLost(w', r))
      && w'.sent == w.sent + [WithCrc(TriggerBody(slave, reg))]
      && (r.Got? ==>
        && w'.pipe == [] && !w'.needsDrain && |reply| == REPLY_MAX
        && r.value == reply[..FRAME_LEN] && IsFrame(r.value))
  {
    hide DrainIfNeeded, Exchange, IsFrame, WithCrc, TriggerBody;
    DrainedIsEmpty(w, f.drain);
    var w1 := DrainIfNeeded(w, f.drain);
    var req := WithCrc(TriggerBody(slave, reg));
    ExchangeOnEmpty(w1, req, FRAME_LEN, reply, f.send, f.first);
    ExchangeSends(w1, req, FRAME_LEN, reply, f.send, f.first);
  }

  lemma ExchangeSends(w: Wire, req: seq<byte>, n: nat, reply: seq<byte>, send: SendFate, fate: ReadFate)
    ensures Exchange(w, req, n, reply, send, fate).0.sent == w.sent + [req]
  {
  }

  /** Whether `p` is how `s` ends. */
  predicate IsEnd(p: seq<byte>, s: seq<byte>) {
    |p| <= |s| && p == s[|s| - |p|..]
  }

  lemma ReadLeavesEnd(p: seq<byte>, s: seq<byte>, k: nat)
    requires IsEnd(p, s)
    ensures IsEnd(p[Min(k, |p|)..], s)
  {
  }

  lemma ExchangeLeavesEnd(w: Wire, req: seq<byte>, n: nat, reply: seq<byte>, send: SendFate, fate: ReadFate)
    requires w.pipe == []
    ensures IsEnd(Exchange(w, req, n, reply, send, fate).0.pipe, reply)
  {
    assert [] + reply == reply;
  }

  /** Whatever comes of a poll, what it leaves unread is the end of its own reply. */
  lemma PollLeavesEnd(w: Wire, slave: byte, reg: bv16, reply: seq<byte>, f: Fates)
    requires Aligned(w) && Drainable(w, f.drain)
    ensures var (w', r) := PollFrame(w, slave, reg, reply, f);
      IsEnd(w'.pipe, reply) && (r.Fails? && !IsSoft(r.error) ==> !w'.needsDrain)
  {
    hide DrainIfNeeded, Exchange, IsFrame, WithCrc, TriggerBody, IsEnd;
    DrainedIsEmpty(w, f.drain);
    var w1 := DrainIfNeeded(w, f.drain);
    var req := WithCrc(TriggerBody(slave, reg));
    ExchangeOnEmpty(w1, req, FRAME_LEN, reply, f.send, f.first);
    ExchangeLeavesEnd(w1, req, FRAME_LEN, reply, f.send, f.first);
    var pipe := Exchange(w1, req, FRAME_LEN, reply, f.send, f.first).0.pipe;
    SecondReadLeavesEnd(pipe, reply, f.second);
  }

  lemma SecondReadLeavesEnd(p: seq<byte>, s: seq<byte>, fate: ReadFate)
    requires IsEnd(p, s)
    ensures IsEnd(ReadExact(p, ACK_LEN, fate).0, s)
  {
  }

  lemma WriteLeavesEnd(w: Wire, slave: byte, command: WriteCommand, reply: seq<byte>, f: Fates)
    requires Aligned(w) && Drainable(w, f.drain)
    ensures IsEnd(WriteSwitch(w, slave, command, reply, f).0.pipe, reply)
  {
    hide DrainIfNeeded, Exchange, WithCrc, CommandBody, IsEnd;
    DrainedIsEmpty(w, f.drain);
    ExchangeLeavesEnd(DrainIfNeeded(w, f.drain), WithCrc(CommandBody(slave, command)), ACK_LEN, reply, f.send, f.first);
  }

  /** The same for a switch write and its acknowledgement. */
  lemma WriteKeepsAlignment(w: Wire, slave: byte, command: WriteCommand, reply: seq<byte>, f: Fates)
    requires Aligned(w) && |reply| <= ACK_LEN && Drainable(w, f.drain)
    ensures var (w', r) := WriteSwitch(w, slave, command, reply, f);
      && Aligned(PortLost(w', r))
      && w'.sent == w.sent + [WithCrc(CommandBody(slave, command))]
      && (r.Got? ==> w'.pipe == [] && !w'.needsDrain && |reply| == ACK_LEN && DecodeWriteAck(slave, reply))
  {
    hide DrainIfNeeded, Exchange, WithCrc, CommandBody;
    DrainedIsEmpty(w, f.drain);
    var w1 := DrainIfNeeded(w, f.drain);
    var req := WithCrc(CommandBody(slave, command));
    ExchangeOnEmpty(w1, req, ACK_LEN, reply, f.send, f.first);
    ExchangeSends(w1, req, ACK_LEN, reply, f.send, f.first);
    assert |reply| == ACK_LEN ==> reply[..ACK_LEN] == reply;
  }

  /** An alarm poll keeps the flag truthful; what it reads is its own only when no drain was owed. */
  lemma AlarmKeepsAlignment(w: Wire, slave: byte, reply: seq<byte>, f: Fates)
    requires Aligned(w) && |reply| <= ALARM_RSP_LEN
    ensures var (w', r) := PollAlarms(w, slave, reply, f);
      && Aligned(PortLost(w', r))
      && w'.sent == w.sent + [WithCrc(AlarmReadBody(slave))]
      && (r.Got? && !w.needsDrain ==> w'.pipe == [] && reply == AlarmResponse(slave, r.value))
  {
    hide WithCrc, DecodedAlarm, AlarmResponse;
    var (w1, rsp) := Exchange(w, WithCrc(AlarmReadBody(slave)), ALARM_RSP_LEN, reply, f.send, f.first);
    var (w', r) := PollAlarms(w, slave, reply, f);
    if r.Got? && !w.needsDrain {
      assert w.pipe + reply == reply && rsp.value == reply;
      AlarmDecodesItsEncoding(slave, reply, r.value);
    }
  }

  // ---- Exactly when a call succeeds ----

  predicate AtLeast(f: ReadFate, n: nat) {
    f.Arrives? && f.n >= n
  }

  /** The request goes out, and a whole frame and its acknowledgement arrive in time. */
  predicate FrameArrives(f: Fates, reply: seq<byte>) {
    |reply| == 308 && f.send.Sends? && AtLeast(f.first, 300) && AtLeast(f.second, 8)
  }

  /** Sending fails hard, or the port breaks while the frame or its acknowledgement is being read. */
  predicate FramePortFails(f: Fates, reply: seq<byte>) {
    || f.send == SendFails(false)
    || (f.send.Sends? && (f.first.Breaks? || (AtLeast(f.first, 300) && |reply| >= 300 && f.second.Breaks?)))
  }

  lemma CleanExchange(w: Wire, req: seq<byte>, n: nat, reply: seq<byte>, send: SendFate, fate: ReadFate)
    requires w.pipe == [] && n > 0
    ensures var (w', r) := Exchange(w, req, n, reply, send, fate);
      && (r.Got? <==> send.Sends? && AtLeast(fate, n) && |reply| >= n)
      && (r.Got? ==> r.value == reply[..n] && w'.pipe == reply[n..])
      && (r.Fails? ==> r.error == Io(!(send == SendFails(false) || (send.Sends? && fate.Breaks?))))
      && w'.needsDrain == w.needsDrain
  {
    assert [] + reply == reply;
  }

  /**
   * A poll on an aligned line succeeds exactly if the request goes out and 308 bytes arrive of which
   * the first 300 are a frame, whether or not a drain was owed.  It owes one afterwards exactly if it
   * failed softly, and it fails hard exactly if the port did.
   */
  lemma PollOutcome(w: Wire, slave: byte, reg: bv16, reply: seq<byte>, f: Fates)
    requires Aligned(w) && |reply| <= 308 && Drainable(w, f.drain)
    ensures var (w', r) := PollFrame(w, slave, reg, reply, f);
      && (r.Got? <==> FrameArrives(f, reply) && IsFrame(reply[..300]))
      && (r.Got? ==> r.value == reply[..300] && w'.pipe == [])
      && (r.Fails? && !IsSoft(r.error) <==> FramePortFails(f, reply))
      && (w'.needsDrain <==> r.Fails? && !FramePortFails(f, reply))
  {
    hide DrainIfNeeded, Exchange, IsFrame, WithCrc, TriggerBody;
    DrainedIsEmpty(w, f.drain);
    var w1, req := DrainIfNeeded(w, f.drain), WithCrc(TriggerBody(slave, reg));
    CleanExchange(w1, req, FRAME_LEN, reply, f.send, f.first);
    var (w2, frame) := Exchange(w1, req, FRAME_LEN, reply, f.send, f.first);
    if frame.Got? {
      assert w2.pipe == reply[300..];
      assert f.second.Breaks? <==> ReadExact(w2.pipe, ACK_LEN, f.second).1 == Fails(Io(false));
    } else {
      assert f.send == SendFails(false) || (f.send.Sends? && f.first.Breaks?) <==> !IsSoft(frame.error);
    }
  }

  predicate AckArrives(f: Fates, reply: seq<byte>) {
    |reply| == 8 && f.send.Sends? && AtLeast(f.first, 8)
  }

  /** The same for a switch write and an acknowledgement that names this slave and function code 0x10. */
  lemma WriteOutcome(w: Wire, slave: byte, command: WriteCommand, reply: seq<byte>, f: Fates)
    requires Aligned(w) && |reply| <= 8 && Drainable(w, f.drain)
    ensures var (w', r) := WriteSwitch(w, slave, command, reply, f);
      && (r.Got? <==> AckArrives(f, reply) && reply[0] == slave && reply[1] == 0x10)
      && (r.Got? ==> w'.pipe == [])
      && (r.Fails? && !IsSoft(r.error) <==> f.send == SendFails(false) || (f.send.Sends? && f.first.Breaks?))
      && (w'.needsDrain <==> r.Fails? && IsSoft(r.error))
  {
    hide DrainIfNeeded, Exchange, WithCrc, CommandBody;
    DrainedIsEmpty(w, f.drain);
    var w1, req := DrainIfNeeded(w, f.drain), WithCrc(CommandBody(slave, command));
    CleanExchange(w1, req, ACK_LEN, reply, f.send, f.first);
    var (w2, ack) := Exchange(w1, req, ACK_LEN, reply, f.send, f.first);
    if ack.Got? {
      assert ack.value == reply;
    } else {
      assert f.send == SendFails(false) || (f.send.Sends? && f.first.Breaks?) <==> !IsSoft(ack.error);
    }
  }

  /** And for an alarm poll on a clean line and the nine bytes that encode the alarms. */
  lemma AlarmOutcome(w: Wire, slave: byte, reply: seq<byte>, f: Fates)
    requires w.pipe == [] && !w.needsDrain && |reply| <= 9
    ensures var (w', r) := PollAlarms(w, slave, reply, f);
      && (forall v :: r == Got(v) <==> f.send.Sends? && AtLeast(f.first, 9) && reply == AlarmResponse(slave, v))
      && (r.Got? ==> w'.pipe == [])
      && (r.Fails? && !IsSoft(r.error) <==> f.send == SendFails(false) || (f.send.Sends? && f.first.Breaks?))
      && (w'.needsDrain <==> r.Fails? && IsSoft(r.error))
  {
    hide Exchange, WithCrc, DecodedAlarm, AlarmResponse;
    var req := WithCrc(AlarmReadBody(slave));
    CleanExchange(w, req, ALARM_RSP_LEN, reply, f.send, f.first);
    var (w1, rsp) := Exchange(w, req, ALARM_RSP_LEN, reply, f.send, f.first);
    if rsp.Got? {
      assert rsp.value == reply;
    } else {
      assert f.send == SendFails(false) || (f.send.Sends? && f.first.Breaks?) <==> !IsSoft(rsp.error);
    }
    forall v ensures
      PollAlarms(w, slave, reply, f).1 == Got(v) <==>
      f.send.Sends? && AtLeast(f.first, 9) && reply == AlarmResponse(slave, v)
    {
      AlarmLength(slave, v);
      if |reply| == 9 {
        AlarmDecodesItsEncoding(slave, reply, v);
      }
    }
  }

  // ---- Any sequence of calls ----

  datatype ProtocolCall =
    | Poll(reg: bv16, reply: seq<byte>, fates: Fates)
    | Write(command: WriteCommand, reply: seq<byte>, fates: Fates)
    | Alarm(reply: seq<byte>, fates: Fates)
    | Reopen(lost: nat)

  /** One call, and the loss of the port after a hard error; a reopened port may have lost bytes. */
  function AfterCall(w: Wire, slave: byte, c: ProtocolCall): Wire {
    match c
    case Poll(reg, reply, f) => var (w', r) := PollFrame(w, slave, reg, reply, f); PortLost(w', r)
    case Write(command, reply, f) => var (w', r) := WriteSwitch(w, slave, command, reply, f); PortLost(w', r)
    case Alarm(reply, f) => var (w', r) := PollAlarms(w, slave, reply, f); PortLost(w', r)
    case Reopen(lost) => w.(pipe := w.pipe[Min(lost, |w.pipe|)..])
  }

  /** The BMS answers each request with no more than its documented response, damaged or not. */
  predicate Documented(w: Wire, c: ProtocolCall) {
    match c
    case Poll(_, reply, f) => |reply| <= 308 && Drainable(w, f.drain)
    case Write(_, reply, f) => |reply| <= 8 && Drainable(w, f.drain)
    case Alarm(reply, _) => |reply| <= 9
    case Reopen(_) => true
  }

  function AfterCalls(slave: byte, calls: seq<ProtocolCall>): Wire {
    if |calls| == 0 then Wire([], false, [])
    else AfterCall(AfterCalls(slave, calls[..|calls| - 1]), slave, calls[|calls| - 1])
  }

  predicate AllDocumented(slave: byte, calls: seq<ProtocolCall>) {
    |calls| == 0 ||
    (AllDocumented(slave, calls[..|calls| - 1]) &&
     Documented(AfterCalls(slave, calls[..|calls| - 1]), calls[|calls| - 1]))
  }

  /** At every call boundary, unread bytes mean that a drain is owed. */
  lemma {:induction false} AlwaysAligned(slave: byte, calls: seq<ProtocolCall>)
    requires AllDocumented(slave, calls)
    ensures Aligned(AfterCalls(slave, calls))
  {
    hide PollFrame, WriteSwitch, PollAlarms, PortLost, Drainable;
    if |calls| > 0 {
      var w := AfterCalls(slave, calls[..|calls| - 1]);
      AlwaysAligned(slave, calls[..|calls| - 1]);
      match calls[|calls| - 1]
      case Poll(reg, reply, f) => PollKeepsAlignment(w, slave, reg, reply, f);
      case Write(command, reply, f) => WriteKeepsAlignment(w, slave, command, reply, f);
      case Alarm(reply, f) => AlarmKeepsAlignment(w, slave, reply, f);
      case Reopen(_) =>
    }
  }

  /** After any history, a poll that succeeds has read the bytes sent for that very request. */
  lemma PollReadsItsOwnReply(slave: byte, calls: seq<ProtocolCall>, reg: bv16, reply: seq<byte>, f: Fates)
    requires AllDocumented(slave, calls) && Documented(AfterCalls(slave, calls), Poll(reg, reply, f))
    ensures var (w', r) := PollFrame(AfterCalls(slave, calls), slave, reg, reply, f);
      r.Got? ==> |reply| == REPLY_MAX && r.value == reply[..FRAME_LEN] && w'.pipe == []
  {
    hide PollFrame, AfterCalls, Drainable, AllDocumented;
    AlwaysAligned(slave, calls);
    PollKeepsAlignment(AfterCalls(slave, calls), slave, reg, reply, f);
  }

  /** However the calls before went, a poll whose frame arrives succeeds, and leaves the line clean. */
  lemma PollsRecover(slave: byte, calls: seq<ProtocolCall>, reg: bv16, reply: seq<byte>, f: Fates)
    requires AllDocumented(slave, calls) && Documented(AfterCalls(slave, calls), Poll(reg, reply, f))
    requires FrameArrives(f, reply) && IsFrame(reply[..300])
    ensures var (w', r) := PollFrame(AfterCalls(slave, calls), slave, reg, reply, f);
      r == Got(reply[..300]) && w'.pipe == [] && !w'.needsDrain
  {
    hide PollFrame, AfterCalls, Drainable, AllDocumented, IsFrame;
    AlwaysAligned(slave, calls);
    PollOutcome(AfterCalls(slave, calls), slave, reg, reply, f);
  }

  lemma WritesRecover(slave: byte, calls: seq<ProtocolCall>, command: WriteCommand, reply: seq<byte>, f: Fates)
    requires AllDocumented(slave, calls) && Documented(AfterCalls(slave, calls), Write(command, reply, f))
    requires AckArrives(f, reply) && reply[0] == slave && reply[1] == 0x10
    ensures var (w', r) := WriteSwitch(AfterCalls(slave, calls), slave, command, reply, f);
      r.Got? && w'.pipe == [] && !w'.needsDrain
  {
    hide WriteSwitch, AfterCalls, Drainable, AllDocumented;
    AlwaysAligned(slave, calls);
    WriteOutcome(AfterCalls(slave, calls), slave, command, reply, f);
  }

  /** And a write that succeeds has read the acknowledgement of that very write. */
  lemma WriteReadsItsOwnAck(slave: byte, calls: seq<ProtocolCall>, command: WriteCommand, reply: seq<byte>, f: Fates)
    requires AllDocumented(slave, calls) && Documented(AfterCalls(slave, calls), Write(command, reply, f))
    ensures var (w', r) := WriteSwitch(AfterCalls(slave, calls), slave, command, reply, f);
      r.Got? ==> |reply| == ACK_LEN && DecodeWriteAck(slave, reply) && w'.pipe == []
  {
    hide WriteSwitch, AfterCalls, Drainable, AllDocumented;
    AlwaysAligned(slave, calls);
    WriteKeepsAlignment(AfterCalls(slave, calls), slave, command, reply, f);
  }

  /** What comes in unasked from the `i`-th read of a drain up to the `k`-th. */
  function Unasked(passes: nat -> Pass, i: nat, k: nat): seq<byte>
    decreases k - i
  {
    if i >= k then [] else passes(i).unasked + Unasked(passes, i + 1, k)
  }

  /** A drain consumes a prefix of what was and came on the line, less than 64 bytes over the cap. */
  lemma {:induction false} DrainConsumes(pipe: seq<byte>, total: nat, i: nat, passes: nat -> Pass) returns (k: nat)
    requires total < DRAIN_MAX_BYTES + DRAIN_CHUNK
    ensures var (rest, end) := DrainStale(pipe, total, i, passes);
      && i <= k <= i + DRAIN_MAX_BYTES - total + DRAIN_CHUNK && total <= end < DRAIN_MAX_BYTES + DRAIN_CHUNK
      && end - total <= |pipe + Unasked(passes, i, k)|
      && rest == (pipe + Unasked(passes, i, k))[end - total..]
    decreases DRAIN_MAX_BYTES - total
  {
    hide DrainStale, Taken;
    if total >= DRAIN_MAX_BYTES {
      DrainDone(pipe, total, i, passes);
      k := i;
      assert pipe + [] == pipe;
    } else {
      DrainStep(pipe, total, i, passes);
      var line := pipe + passes(i).unasked;
      var n := Taken(line, passes(i).available);
      if n == 0 {
        k := i + 1;
        assert Unasked(passes, i, k) == passes(i).unasked + [];
      } else {
        k := DrainConsumes(line[n..], total + n, i + 1, passes);
        assert pipe + Unasked(passes, i, k) == line + Unasked(passes, i + 1, k);
        assert (line + Unasked(passes, i + 1, k))[n..] == line[n..] + Unasked(passes, i + 1, k);
      }
    }
  }

  /**
   * However much is on the line and however much more keeps coming, a drain stops after at most
   * 4159 bytes and 4160 reads, having taken what came first.
   */
  lemma DrainIsBounded(pipe: seq<byte>, passes: nat -> Pass) returns (k: nat)
    ensures var (rest, total) := DrainStale(pipe, 0, 0, passes); var line := pipe + Unasked(passes, 0, k);
      k <= 4160 && total <= 4159 && total <= |line| && rest == line[total..]
  {
    k := DrainConsumes(pipe, 0, 0, passes);
  }

  // ---- Two ways out of step ----

  /** Nothing comes unasked and nothing is there to be drained. */
  const QUIET: nat -> Pass := _ => Pass([], 0)

  /** An alarm poll that is made on a clean line and times out before any of its response arrives. */
  function LateAlarm(response: seq<byte>): ProtocolCall {
    Alarm(response, Fates(QUIET, Sends, Arrives(0), Arrives(0)))
  }

  /**
   * An alarm poll does not drain.  Called again after it timed out, it succeeds with the late response
   * to the call before, whatever the true one says.
   */
  lemma AlarmMayReadStale(slave: byte, stale: bv32, current: bv32)
    ensures var late := [LateAlarm(AlarmResponse(slave, stale))];
      var w := AfterCalls(slave, late);
      var f := Fates(QUIET, Sends, Arrives(18), Arrives(0));
      && AllDocumented(slave, late) && Documented(w, Alarm(AlarmResponse(slave, current), f))
      && w.pipe == AlarmResponse(slave, stale) && w.needsDrain
      && PollAlarms(w, slave, AlarmResponse(slave, current), f).1 == Got(stale)
  {
    hide WithCrc, DecodedAlarm, AlarmResponse;
    AlarmLength(slave, stale);
    AlarmLength(slave, current);
    AlarmDecodesItsEncoding(slave, AlarmResponse(slave, stale), stale);
    LateAlarmStays(slave, AlarmResponse(slave, stale));
    var both := AlarmResponse(slave, stale) + AlarmResponse(slave, current);
    assert both[..ALARM_RSP_LEN] == AlarmResponse(slave, stale);
  }

  lemma LateAlarmStays(slave: byte, response: seq<byte>)
    requires |response| == ALARM_RSP_LEN
    ensures var late := [LateAlarm(response)]; var w := AfterCalls(slave, late);
      AllDocumented(slave, late) && w.pipe == response && w.needsDrain
  {
    hide WithCrc, DecodedAlarm;
    var late := [LateAlarm(response)];
    assert late[..0] == [];
    assert [] + response == response && response[0..] == response;
    assert AfterCalls(slave, late) == AfterCall(Wire([], false, []), slave, late[0]);
  }

  /** Whether every alarm poll that succeeds, on whatever line, has read its own response. */
  ghost predicate AlarmsAreOwn(slave: byte, needsDrain: bool) {
    forall w, reply, f | Aligned(w) && w.needsDrain == needsDrain && |reply| <= ALARM_RSP_LEN ::
      AlarmIsOwn(w, slave, reply, f)
  }

  predicate AlarmIsOwn(w: Wire, slave: byte, reply: seq<byte>, f: Fates) {
    var r := PollAlarms(w, slave, reply, f).1;
    r.Got? ==> reply == AlarmResponse(slave, r.value)
  }

  /** So alarm polls can be trusted exactly when no drain is owed. */
  lemma AlarmsAreOwnUnlessDrainIsOwed(slave: byte, needsDrain: bool)
    ensures AlarmsAreOwn(slave, needsDrain) <==> !needsDrain
  {
    hide PollAlarms, AlarmResponse, DecodedAlarm, AfterCalls, AllDocumented;
    if needsDrain {
      var w := AfterCalls(slave, [LateAlarm(AlarmResponse(slave, 0))]);
      AlarmMayReadStale(slave, 0, 1);
      AlarmLength(slave, 1);
      AlarmDecodesItsEncoding(slave, AlarmResponse(slave, 1), 1);
      AlarmDecodesItsEncoding(slave, AlarmResponse(slave, 1), 0);
      assert !AlarmIsOwn(w, slave, AlarmResponse(slave, 1), Fates(QUIET, Sends, Arrives(18), Arrives(0)));
    } else {
      forall w, reply, f | Aligned(w) && w.needsDrain == needsDrain && |reply| <= ALARM_RSP_LEN
        ensures AlarmIsOwn(w, slave, reply, f)
      {
        AlarmKeepsAlignment(w, slave, reply, f);
      }
    }
  }

  /**
   * A hard error owes no drain.  If the reopened port still holds what the broken read left, the next
   * poll takes the earlier frame for its own.
   */
  lemma HardErrorMayReadStale(slave: byte, reg: bv16, next: bv16, a: seq<byte>, b: seq<byte>)
    requires |a| == |b| == REPLY_MAX && IsFrame(a[..FRAME_LEN])
    ensures var (w1, r1) := PollFrame(Wire([], false, []), slave, reg, a, Fates(QUIET, Sends, Breaks(0), Arrives(0)));
      var (w2, r2) := PollFrame(w1, slave, next, b, Fates(QUIET, Sends, Arrives(616), Arrives(316)));
      && r1 == Fails(Io(false)) && !w1.needsDrain && w1.pipe == a
      && r2 == Got(a[..FRAME_LEN])
  {
    hide WithCrc, TriggerBody, IsFrame;
    assert [] + a == a && a[0..] == a;
    assert (a + b)[..FRAME_LEN] == a[..FRAME_LEN];
  }

  /** Whether these bytes are, or can grow into, a frame that passes its check. */
  predicate MayBeginFrame(p: seq<byte>) {
    if |p| >= FRAME_LEN then IsFrame(p[..FRAME_LEN])
    else p[..Min(|p|, |MAGIC|)] == MAGIC[..Min(|p|, |MAGIC|)]
  }

  predicate PollIsOwn(w: Wire, slave: byte, reg: bv16, reply: seq<byte>, f: Fates) {
    var r := PollFrame(w, slave, reg, reply, f).1;
    r.Got? ==> |reply| >= FRAME_LEN && r.value == reply[..FRAME_LEN]
  }

  /** Whether a poll that succeeds although `leftover` is unread, no drain being owed, reads its own reply. */
  ghost predicate PollsAreOwn(slave: byte, reg: bv16, leftover: seq<byte>) {
    forall w: Wire, reply, f | w.pipe == leftover && !w.needsDrain && |reply| <= REPLY_MAX ::
      PollIsOwn(w, slave, reg, reply, f)
  }

  function Zeros(n: nat): (z: seq<byte>)
    ensures |z| == n && forall i | 0 <= i < n :: z[i] == 0
  {
    if n == 0 then [] else Zeros(n - 1) + [0]
  }

  /** The bytes that make a frame of a beginning: the rest of the magic, zeros, and the sum. */
  function Rest(p: seq<byte>): (rest: seq<byte>)
    requires |p| < FRAME_LEN
    ensures |p + rest| == FRAME_LEN
  {
    var head := if |p| < |MAGIC| then MAGIC[|p|..] else [];
    var body := head + Zeros(FRAME_LEN - 1 - |p| - |head|);
    body + [Sum8(p + body)]
  }

  lemma RestMakesAFrame(p: seq<byte>)
    requires |p| < FRAME_LEN && MayBeginFrame(p)
    ensures IsFrame(p + Rest(p))
    ensures 0 < |p| <= ACK_LEN ==> Rest(p)[0] != p[0]
  {
    hide Sum8;
    var frame := p + Rest(p);
    var body := Rest(p)[..|Rest(p)| - 1];
    assert frame[..FRAME_LEN - 1] == p + body;
    if |p| < |MAGIC| {
      assert frame[..4] == p + MAGIC[|p|..] == MAGIC;
    } else {
      assert frame[..4] == p[..4];
    }
  }

  /** A poll on a line with enough bytes takes the first 300, if they are a frame. */
  lemma PollTakesTheFirst(w: Wire, slave: byte, reg: bv16, reply: seq<byte>)
    requires !w.needsDrain && |w.pipe + reply| >= REPLY_MAX && IsFrame((w.pipe + reply)[..FRAME_LEN])
    ensures var n := |w.pipe + reply|;
      PollFrame(w, slave, reg, reply, Fates(QUIET, Sends, Arrives(n), Arrives(n))).1 ==
        Got((w.pipe + reply)[..FRAME_LEN])
  {
    hide WithCrc, TriggerBody, IsFrame;
  }

  lemma LeftoverIsTaken(slave: byte, reg: bv16, leftover: seq<byte>)
    requires leftover != [] && MayBeginFrame(leftover)
    ensures !PollsAreOwn(slave, reg, leftover)
  {
    hide IsFrame, MayBeginFrame, PollFrame;
    var w := Wire(leftover, false, []);
    var reply := if |leftover| >= FRAME_LEN then Zeros(ACK_LEN) else Rest(leftover) + Zeros(ACK_LEN);
    assert IsFrame((leftover + reply)[..FRAME_LEN]) by {
      if |leftover| >= FRAME_LEN {
        BeginsWithFrame(leftover);
        assert (leftover + reply)[..FRAME_LEN] == leftover[..FRAME_LEN];
      } else {
        RestMakesAFrame(leftover);
        assert (leftover + reply)[..FRAME_LEN] == leftover + Rest(leftover);
      }
    }
    PollTakesTheFirst(w, slave, reg, reply);
    var n := |w.pipe + reply|;
    if |leftover| < FRAME_LEN {
      RestMakesAFrame(leftover);
      assert (leftover + reply)[0] == leftover[0] && reply[0] == Rest(leftover)[0];
    }
    assert !PollIsOwn(w, slave, reg, reply, Fates(QUIET, Sends, Arrives(n), Arrives(n)));
  }

  lemma BeginsWithFrame(p: seq<byte>)
    requires MayBeginFrame(p) && |p| >= FRAME_LEN
    ensures IsFrame(p[..FRAME_LEN])
  {
  }

  /** What a successful poll returns is the beginning of the line, and passes the frame check. */
  lemma PollReadsTheLine(w: Wire, slave: byte, reg: bv16, reply: seq<byte>, f: Fates)
    requires !w.needsDrain
    ensures var r := PollFrame(w, slave, reg, reply, f).1; var line := w.pipe + reply;
      r.Got? ==> |line| >= FRAME_LEN && r.value == line[..FRAME_LEN] && IsFrame(r.value)
  {
    hide WithCrc, TriggerBody, IsFrame;
  }

  lemma FramesBeginAsFrames(p: seq<byte>, reply: seq<byte>)
    requires |p + reply| >= FRAME_LEN && IsFrame((p + reply)[..FRAME_LEN])
    ensures MayBeginFrame(p)
  {
    var frame := (p + reply)[..FRAME_LEN];
    if |p| >= FRAME_LEN {
      assert frame == p[..FRAME_LEN];
    } else {
      var k := Min(|p|, |MAGIC|);
      assert p[..k] == frame[..4][..k];
    }
  }

  /**
   * So with no drain owed, polls can be trusted exactly when what is left unread is nothing, or
   * cannot be the beginning of a frame.
   */
  lemma PollsAreOwnIffNothingBegins(slave: byte, reg: bv16, leftover: seq<byte>)
    ensures PollsAreOwn(slave, reg, leftover) <==> leftover == [] || !MayBeginFrame(leftover)
  {
    hide PollFrame, MayBeginFrame, IsFrame;
    if leftover != [] && MayBeginFrame(leftover) {
      LeftoverIsTaken(slave, reg, leftover);
    } else {
      forall w: Wire, reply, f | w.pipe == leftover && !w.needsDrain && |reply| <= REPLY_MAX
        ensures PollIsOwn(w, slave, reg, reply, f)
      {
        PollReadsTheLine(w, slave, reg, reply, f);
        if leftover == [] {
          assert w.pipe + reply == reply;
        } else if PollFrame(w, slave, reg, reply, f).1.Got? {
          FramesBeginAsFrames(leftover, reply);
          assert false;
        }
      }
    }
  }

  /** Whether these bytes are, or can grow into, an acknowledgement that is accepted. */
  predicate MayBeginAck(slave: byte, p: seq<byte>) {
    (|p| >= 1 ==> p[0] == slave) && (|p| >= 2 ==> p[1] == 0x10)
  }

  predicate WriteIsOwn(w: Wire, slave: byte, command: WriteCommand, reply: seq<byte>, f: Fates) {
    var (w', r) := WriteSwitch(w, slave, command, reply, f);
    r.Got? ==> |reply| >= ACK_LEN && w'.pipe == reply[ACK_LEN..]
  }

  /** Whether a write that succeeds although `leftover` is unread reads its own acknowledgement. */
  ghost predicate WritesAreOwn(slave: byte, command: WriteCommand, leftover: seq<byte>) {
    forall w: Wire, reply, f | w.pipe == leftover && !w.needsDrain && |reply| <= ACK_LEN ::
      WriteIsOwn(w, slave, command, reply, f)
  }

  lemma LeftoverAcknowledges(slave: byte, command: WriteCommand, leftover: seq<byte>)
    requires leftover != [] && MayBeginAck(slave, leftover)
    ensures !WritesAreOwn(slave, command, leftover)
  {
    hide WithCrc, CommandBody;
    var reply :=
      if |leftover| >= ACK_LEN then []
      else if |leftover| == 1 then [0x10] + Zeros(ACK_LEN - 2)
      else Zeros(ACK_LEN - |leftover|);
    var n := |leftover + reply|;
    var f := Fates(QUIET, Sends, Arrives(n), Arrives(0));
    assert !WriteIsOwn(Wire(leftover, false, []), slave, command, reply, f);
  }

  /** The same for switch writes: two bytes of an acknowledgement are all that is checked. */
  lemma WritesAreOwnIffNothingBegins(slave: byte, command: WriteCommand, leftover: seq<byte>)
    ensures WritesAreOwn(slave, command, leftover) <==> leftover == [] || !MayBeginAck(slave, leftover)
  {
    if leftover != [] && MayBeginAck(slave, leftover) {
      LeftoverAcknowledges(slave, command, leftover);
    } else {
      hide WithCrc, CommandBody;
      forall w: Wire, reply, f | w.pipe == leftover && !w.needsDrain && |reply| <= ACK_LEN
        ensures WriteIsOwn(w, slave, command, reply, f)
      {
        if leftover == [] {
          assert w.pipe + reply == reply;
        }
      }
    }
  }

  /**
   * What a poll leaves behind when it fails hard is the end of its reply, with no drain owed; of it the
   * port may lose some more before the next poll, which can be trusted under that same condition.
   */
  lemma HardErrorOwesNoDrain(w: Wire, slave: byte, reg: bv16, reply: seq<byte>, f: Fates, lost: nat, next: bv16)
    requires Aligned(w) && Drainable(w, f.drain)
    ensures var (w', r) := PollFrame(w, slave, reg, reply, f);
      r.Fails? && !IsSoft(r.error) ==>
        var left := AfterCall(w', slave, Reopen(lost)).pipe;
        && !w'.needsDrain && IsEnd(left, reply)
        && (PollsAreOwn(slave, next, left) <==> left == [] || !MayBeginFrame(left))
  {
    hide PollsAreOwn, MayBeginFrame, PollFrame, IsEnd, Drainable;
    PollLeavesEnd(w, slave, reg, reply, f);
    var (w', r) := PollFrame(w, slave, reg, reply, f);
    ReadLeavesEnd(w'.pipe, reply, lost);
    PollsAreOwnIffNothingBegins(slave, next, AfterCall(w', slave, Reopen(lost)).pipe);
  }

  /** Right after a good frame the line is clean, and an alarm poll reads its own response. */
  lemma AlarmAfterPollReadsItsOwn(w: Wire, slave: byte, reg: bv16, reply: seq<byte>, f: Fates,
                                  response: seq<byte>, g: Fates)
    requires Aligned(w) && |reply| <= REPLY_MAX && Drainable(w, f.drain) && |response| <= ALARM_RSP_LEN
    requires PollFrame(w, slave, reg, reply, f).1.Got?
    ensures var r := PollAlarms(PollFrame(w, slave, reg, reply, f).0, slave, response, g).1;
      r.Got? ==> response == AlarmResponse(slave, r.value)
  {
    hide PollFrame, PollAlarms, AlarmResponse, Drainable;
    PollKeepsAlignment(w, slave, reg, reply, f);
    AlarmKeepsAlignment(PollFrame(w, slave, reg, reply, f).0, slave, response, g);
  }

  lemma AlarmLength(slave: byte, v: bv32)
    ensures |AlarmResponse(slave, v)| == ALARM_RSP_LEN
  {
  }
}

/** The protocol object and the port it is handed. */
module Protocol {
  import opened Wrappers
  import opened JkBmsTypes
  import opened ModbusCrc
  import opened Codec
  import opened ProtocolSpec

  /** The serial port, as far as the protocol can tell. */
  class Transport {
    var pipe: seq<byte>
    ghost var sent: seq<seq<byte>>

    constructor ()
      ensures pipe == [] && sent == []
    {
      pipe, sent := [], [];
    }

    method WriteAll(req: seq<byte>, reply: seq<byte>, send: SendFate) returns (e: Option<JkBmsError>)
      modifies this
      ensures pipe == old(pipe) + reply && sent == old(sent) + [req]
      ensures e == match send case Sends => None case SendFails(timedOut) => Some(Io(timedOut))
    {
      sent := sent + [req];
      pipe := pipe + reply;
      match send {
        case Sends => return None;
        case SendFails(timedOut) => return Some(Io(timedOut));
      }
    }

    method ReadBytes(n: nat, fate: ReadFate) returns (r: Outcome<seq<byte>>)
      modifies this`pipe
      ensures (pipe, r) == ReadExact(old(pipe), n, fate)
    {
      match fate {
        case Breaks(k) =>
          pipe := pipe[Min(k, |pipe|)..];
          return Fails(Io(false));
        case Arrives(k) =>
          var got := Min(k, |pipe|);
          if got >= n {
            r := Got(pipe[..n]);
            pipe := pipe[n..];
          } else {
            r := Fails(Io(true));
            pipe := pipe[got..];
          }
      }
    }

    /** Whatever is available, up to one buffer. */
    method Read(pass: Pass) returns (n: nat)
      modifies this`pipe
      ensures var line := old(pipe) + pass.unasked;
        n == Taken(line, pass.available) && pipe == line[n..]
    {
      pipe := pipe + pass.unasked;
      n := Taken(pipe, pass.available);
      pipe := pipe[n..];
    }
  }

  class JkBmsProtocol {
    const slaveId: byte
    var needsDrain: bool

    constructor (slaveId: byte)
      ensures this.slaveId == slaveId && !needsDrain
    {
      this.slaveId := slaveId;
      needsDrain := false;
    }

    ghost function Model(t: Transport): Wire
      reads this, t
    {
      Wire(t.pipe, needsDrain, t.sent)
    }

    method Exchange(t: Transport, req: seq<byte>, n: nat, reply: seq<byte>, send: SendFate, fate: ReadFate)
      returns (r: Outcome<seq<byte>>)
      modifies t
      ensures (Model(t), r) == ProtocolSpec.Exchange(old(Model(t)), req, n, reply, send, fate)
    {
      var e := t.WriteAll(req, reply, send);
      if e.Some? {
        return Fails(e.value);
      }
      r := t.ReadBytes(n, fate);
    }

    method DrainIfNeeded(t: Transport, passes: nat -> Pass)
      modifies this`needsDrain, t`pipe
      ensures Model(t) == ProtocolSpec.DrainIfNeeded(old(Model(t)), passes)
    {
      if needsDrain {
        var total := DrainStale(t, passes);
        needsDrain := false;
      }
    }

    /** Best-effort reads until the line is quiet or the cap is hit; `passes` says what each meets. */
    method DrainStale(t: Transport, passes: nat -> Pass) returns (total: nat)
      modifies t`pipe
      ensures (t.pipe, total) == ProtocolSpec.DrainStale(old(t.pipe), 0, 0, passes)
      ensures total <= 4159
    {
      hide ProtocolSpec.DrainStale, Taken;
      total := 0;
      var i := 0;
      while total < DRAIN_MAX_BYTES
        invariant total < DRAIN_MAX_BYTES + DRAIN_CHUNK
        invariant ProtocolSpec.DrainStale(t.pipe, total, i, passes) ==
          ProtocolSpec.DrainStale(old(t.pipe), 0, 0, passes)
        decreases DRAIN_MAX_BYTES - total
      {
        DrainStep(t.pipe, total, i, passes);
        var n := t.Read(passes(i));
        if n == 0 {
          return;
        }
        total := total + n;
        i := i + 1;
      }
      DrainDone(t.pipe, total, i, passes);
    }

    method TriggerFrame(t: Transport, req: seq<byte>, reply: seq<byte>, f: Fates) returns (r: Outcome<seq<byte>>)
      modifies this`needsDrain, t
      ensures (Model(t), r) == ProtocolSpec.TriggerFrame(old(Model(t)), req, reply, f)
    {
      DrainIfNeeded(t, f.drain);
      r := Exchange(t, req, FRAME_LEN, reply, f.send, f.first);
      if r.Fails? {
        return;
      }
      var ack := t.ReadBytes(ACK_LEN, f.second);
      if ack.Fails? {
        r := Fails(ack.error);
      }
    }

    method PollFrame(t: Transport, reg: bv16, reply: seq<byte>, f: Fates) returns (r: Outcome<seq<byte>>)
      modifies this`needsDrain, t
      ensures (Model(t), r) == ProtocolSpec.PollFrame(old(Model(t)), slaveId, reg, reply, f)
    {
      hide ProtocolSpec.TriggerFrame, IsFrame, WithCrc, TriggerBody;
      var req := BuildTrigger(slaveId, reg);
      r := TriggerFrame(t, req, reply, f);
      if r.Got? {
        var e := Validate(r.value);
        if e.Some? {
          r := Fails(Parse);
        }
      }
      if r.Fails? && IsSoft(r.error) {
        needsDrain := true;
      }
    }

    method PollAlarms(t: Transport, reply: seq<byte>, f: Fates) returns (r: Outcome<bv32>)
      modifies this`needsDrain, t
      ensures (Model(t), r) == ProtocolSpec.PollAlarms(old(Model(t)), slaveId, reply, f)
    {
      hide WithCrc, AlarmReadBody, DecodedAlarm;
      var req := EncodeAlarmRead(slaveId);
      var rsp := Exchange(t, req, ALARM_RSP_LEN, reply, f.send, f.first);
      match rsp {
        case Fails(e) => r := Fails(e);
        case Got(buf) =>
          var v := DecodeAlarmResponse(slaveId, buf);
          r := if v.None? then Fails(Parse) else Got(v.value);
      }
      if r.Fails? && IsSoft(r.error) {
        needsDrain := true;
      }
    }

    method Write(t: Transport, command: WriteCommand, reply: seq<byte>, f: Fates) returns (r: Outcome<()>)
      modifies this`needsDrain, t
      ensures (Model(t), r) == WriteSwitch(old(Model(t)), slaveId, command, reply, f)
    {
      hide ProtocolSpec.DrainIfNeeded, WithCrc, CommandBody;
      DrainIfNeeded(t, f.drain);
      var req := EncodeCommand(slaveId, command);
      var ack := Exchange(t, req, ACK_LEN, reply, f.send, f.first);
      match ack {
        case Fails(e) => r := Fails(e);
        case Got(buf) => r := if DecodeWriteAck(slaveId, buf) then Got(()) else Fails(Parse);
      }
      if r.Fails? && IsSoft(r.error) {
        needsDrain := true;
      }
    }
  }
}
