# jkbms2mqtt: a verified model

jkbms2mqtt reads a JK battery management system (BMS) over a serial line and publishes it over MQTT. This project
models its write path end to end, the wire protocol below it and the MQTT side above it, and proves what holds over
every run. `dafny verify dfyconfig.toml` checks all of it.

| File | Models |
|---|---|
| `Types.dfy` | values shared by the serial side and the coordinator |
| `ManagerSpec.dfy`, `ConnectionManager.dfy` | the BMS connection manager: its step function, and the actor proved equal to it |
| `WriteLedger.dfy`, `ManagerWrites.dfy` | received, answered and waiting writes; the queue and the wire |
| `ManagerWakeups.dfy`, `ManagerLink.dfy`, `ManagerEscalation.dfy` | wake-ups; link events and outage timing; the stuck-link counter |
| `ManagerTalks.dfy` | the order in which the manager talks with the line |
| `ManagerPolls.dfy`, `ManagerTimes.dfy`, `ManagerOutcomes.dfy` | what a polling turn asks for; how long each wake-up is put off; what commands, connects and retries achieve |
| `ManagerRuns.dfy` | the manager's invariant in every reachable state, and what it means |
| `CoordinatorSpec.dfy`, `Coordinator.dfy` | freeze, aggregator and coordinator: transition functions, and the objects proved equal to them |
| `System.dfy`, `SystemSteps.dfy`, `SystemRuns.dfy`, `SystemRequests.dfy`, `SystemReadings.dfy` | manager and coordinator joined by their queues: the invariant, agreement and freezes, requests followed from number to wire, and readings followed into what is published |
| `Crc.dfy`, `Codec.dfy`, `Protocol.dfy` | CRC-16, frames, and the request/response choreography with its drain |
| `ManagerLine.dfy` | the manager over the wire protocol: from the bytes sent to the events emitted |
| `MqttSessions.dfy` | the MQTT session loop, its backoff and its broker events |
| `Listings.dfy`, `EntityBuilders.dfy` | the three listings of entity ids, each spelt out on its own, and the builders proved to produce them |
| `Entities.dfy`, `CellCounts.dfy` | the agreement of the listings, and runs with any number of cells |

Each stateful component appears twice: a `class` with the source's fields and one method per source function, and a
transition function over a value. The method's contract equates the new state with that function of the old one, and
the theorems are about the function, over runs of any length with any outcome of every outside call.

How the outside is modelled:

- A run is a sequence of turns. A turn handles one ready source to completion, as the `select!` loops do, or lets time
  pass; a source that is not ready cannot be picked. Which ready source is picked is arbitrary.
- The opener, the protocol and the serial port answer anything: success, timeout, parse error or hard I/O error, after
  any time. Between such calls a handler takes no time. The clock counts nanoseconds and never goes back; a delayed
  command runs at or after its deadline, by any amount.
- The coordinator and the manager share nothing but their two queues, so a manager handler is one turn of the composed
  system. The command channel holds 32 commands and may refuse more (`room`); the event channel is unbounded.
- Calls on the MQTT handle are a log. Whether the handle's channel had room matters for the subscription only, as in the
  source.
- The `Cause` of a write error is an annotation that no transition reads; the source's event carries the number alone.
- Readings are exact real numbers where the source has floating point.
- Where a manager is put over the protocol, each of its talks with the line is one protocol call: the answer it got is
  what that call read, with the decoding of an accepted frame's fields left to arbitrary functions.

`ARCHITECTURE.md:249` has only operational successes clear the failure counter; the code clears it on any successful
poll (`src/jkbms/connection_manager.rs:314-317`), and the model follows the code.

Four claims are false of the code as it stands; each comes with a failing input and its exact condition:

- An alarm poll does not drain. Called again after it timed out it reports the late response to the call before as
  current (`Alignment.AlarmMayReadStale`); alarm polls can be trusted exactly when no drain is owed. This is a weakness
  of the protocol's interface alone: the manager never asks for alarms twice without a draining call in between, so it
  never takes an earlier alarm response for the current one (`ManagerLine.AlarmsAreNotStale`).
- A hard error owes no drain. If a reopened port still holds the reply to the broken poll, the next poll takes that
  frame for its own (`Alignment.HardErrorMayReadStale`); polls can be trusted exactly when nothing is left unread or it
  cannot begin a frame (`Alignment.PollsAreOwnIffNothingBegins`). The run theorems have unread bytes lost with the port.
- Broker events alternate exactly when no session sees a second CONNACK (`MqttRuns.EventsAlternate`); a session with two
  reports two connections in a row (`MqttRuns.SecondConnAckRepeats`).
- Discovery does not clamp the cell count while the snapshot does, so they agree exactly for 1 to 16 cells
  (`EntityAgreement.CoordinatorListingsAgree`); every cell count is reached (`CellCounts.AnyCellCountIsReached`).

## Model

| member | source | states |
|---|---|---|
| `SystemRuns.QuiescentAgreement` | src/coordinator/coordinator.rs:129-272 | in every reachable state of the composed system with nothing in flight, no switch is frozen and the last published snapshot shows the switches last read back from the BMS, whatever requests, refusals, outages and broker reconnects came before |
| `SystemRuns.FrozenIsInFlight` | src/coordinator/freeze.rs:41-66 | a frozen switch always waits for a write that is in the command channel, in the manager's queue, or answered in an event not read yet |
| `SystemRuns.ConfirmationClearsItsOwn` | src/coordinator/coordinator.rs:201-207 | when a confirmation is consumed no older freeze exists, so the `>=` test clears exactly what `==` would |
| `SystemRuns.OnlineOnlyAfterData` | src/coordinator/coordinator.rs:161-186 | online is never announced before some discovery and some snapshot were published, broker reconnects included |
| `SystemRuns.DiscoveryWhenAllKnown` | src/coordinator/coordinator.rs:210-221 | discovery counts as published exactly when all three fragments were seen; the BMS reconnect counter is the connections seen after the first, saturating at 32 bits |
| `SystemRuns.DiscoveriesAreCounted` | src/coordinator/coordinator.rs:210-264 | the discovery calls of a whole run are exactly one as soon as the three fragments have been seen, plus one for each broker connection that could subscribe while device info and configuration were known |
| `SystemReadings.EventsArePublished` | src/coordinator/coordinator.rs:190-233 | once configuration and operational data are known, reading any data, confirmation or write error ends in a new snapshot that is current: every field the latest read |
| `SystemReadings.LatestReadingsAreShown` | src/coordinator/coordinator.rs:154-272 | in every reachable state the snapshot last published carries the latest operational data, configuration, alarms and device info read, field by field |
| `SystemReadings.SnapshotsAreCurrent` | src/coordinator/aggregator.rs:69-121 | in every reachable state a snapshot can be built exactly if configuration and operational data were read, and then each field is named: voltages and resistances slot by slot, power as voltage times current, first lowest and highest cell, average, age in whole seconds, both reconnect counts, switches with what is outstanding |
| `SystemReadings.LinkEventsAnnounce` | src/coordinator/coordinator.rs:161-188 | reading a link event publishes exactly this: online on a connection, offline on a disconnection that was online before, nothing else |
| `SystemReadings.DiscoveriesAreCurrent` | src/coordinator/coordinator.rs:249-294 | every discovery, by an event or a broker reconnect, names the device info and the cell count last read |
| `SystemReadings.HealthIsTold` | src/coordinator/coordinator.rs:121-127 | in every reachable state healthy means that the broker was last reported connected and the last settled link event read was a connection |
| `SystemRequests.RequestsAreSent` | src/jkbms/connection.rs:60-64 | in every reachable state an accepted request enters the command channel last, under its number, with its switch and value; only a channel that holds 32 commands or is closed refuses it |
| `SystemRequests.WireCarriesRequests` | src/coordinator/coordinator.rs:129-152 | end to end, whatever the BMS is sent under number n is exactly what the n-th request of the run asked for: that switch, that value |
| `SystemRequests.FrozenShowsItsRequest` | src/coordinator/freeze.rs:22-39 | a frozen switch holds the value that the request with its number asked for, on that very switch |
| `SystemRequests.RequestShowsAtOnce` | src/coordinator/coordinator.rs:129-152 | in every reachable state an accepted request changes its switch in the snapshot that can be built right after it, a refused one puts it back to the last readback, and nothing else in that snapshot changes; the request itself publishes nothing |
| `SystemRequests.AvailabilityIsTruthful` | src/coordinator/coordinator.rs:161-188 | in every reachable state the last availability announced, by an event or a broker reconnect, is the coordinator's view of the link, which is the last connected or disconnected event read; reconnecting changes neither |
| `SystemRequests.ReconnectRepublishes` | src/coordinator/coordinator.rs:236-264 | an accepted subscription is followed by availability, then discovery exactly if it can be built, then a snapshot exactly if one can, each once |
| `SystemRequests.RefusedSubscriptionEnds` | src/coordinator/coordinator.rs:236-241 | when the subscription is refused nothing more is published |
| `SystemSteps.ReachKeeps` | src/jkbms/connection.rs:10-64 | every turn of either actor keeps the composed invariant: issued numbers increase, the cache is the latest fragments seen, freezes are outstanding |
| `SystemSteps.ManagerDeserves` | src/jkbms/connection_manager.rs:392-484 | what the freeze logic relies on: by the time a confirmation is next in the event queue, the answer to every older request has been read; a connected event is next only right after a full resync |
| `ManagerRuns.WriteConservation` | src/jkbms/connection_manager.rs:392-484 | the writes handed over are, as a multiset, exactly those confirmed, those refused or evicted, and those waiting |
| `ManagerRuns.AnsweredAtMostOnce` | src/jkbms/connection_manager.rs:392-484 | with increasing numbers no write is answered twice, nor answered and still waiting |
| `ManagerRuns.AnswerOrder` | src/jkbms/connection_manager.rs:394-456 | confirmations and evictions leave in request order, ahead of all that waits; when a write is confirmed every earlier request has its answer |
| `ManagerRuns.ConfirmedWasWritten` | src/jkbms/connection_manager.rs:462-484 | every confirmation answers a write that was handed to the protocol at least 300 ms before |
| `ManagerRuns.WireDiscipline` | src/jkbms/connection_manager.rs:394-444 | at most five writes wait, none reaches the protocol more than 10 s after it was queued, and they reach it in request order |
| `ManagerRuns.EvictionDropsTheExpired` | src/jkbms/connection_manager.rs:433-444 | evicting from the head only removes exactly the expired writes of the whole queue |
| `ManagerRuns.OutageTiming` | src/jkbms/connection_manager.rs:49-59 | a lost link is reported, or a write refused because of it, no sooner than 10 s after the first link-down event of that outage, for any firing delays and any mix of failures |
| `ManagerRuns.LinkGrammar` | src/jkbms/connection_manager.rs:170-250 | an outage is at most five reconnecting events and then only disconnected ones, at least one of them before a later connection; each connected event directly follows device info, configuration and operational data |
| `ManagerRuns.AttemptCounter` | src/jkbms/connection_manager.rs:231-250 | the attempt counter equals the link-down events since the last connection, and is zero exactly while the link is up |
| `ManagerRuns.DropsExactlyWhenStuck` | src/jkbms/connection_manager.rs:312-336 | an established link drops right after a hard error or the fifth soft failure in a row, polls and writes mixed, and for no other reason |
| `ManagerRuns.CounterIsHistory` | src/jkbms/connection_manager.rs:490-506 | the failure counter equals the soft failures since the last success, open or drop, and is at most four between handlers |
| `ManagerRuns.NoLostWakeups` | src/jkbms/connection_manager.rs:509-542 | one connect is queued exactly while the link is down, one retry and one poll exactly while their flags are set, in both queues together; a live link has its poll queued, and its retry if writes wait |
| `ManagerPolls.PollingTurnsAskForWhatIsDue` | src/jkbms/connection_manager.rs:254-306 | in any run a polling turn on a live link asks for exactly what is due, in order: device info not heard of for 30 s, configuration for 20 s, operational data and alarms for 5 s, a write's readback counting as configuration; it stops short only at a drop, otherwise leaves nothing due that did not fail, and puts the next turn off by 5 s |
| `ManagerTimes.WakeupsAreOnTime` | src/jkbms/connection_manager.rs:49-59 | in any run a waiting reconnect is due exactly 0.25, 1, 1.75, 2.5, 4.5 and from then on 5 s after the first, second and later link-down events of its outage; polls are put off by 5 s at most and retries by 250 ms |
| `ManagerOutcomes.CommandsAreTaken` | src/jkbms/connection_manager.rs:392-422 | in any run a command is tried at once if the link is up and nothing waits; otherwise it is refused exactly if the outage has had more than five link-down events or five writes wait, and queued last in every other case |
| `ManagerOutcomes.ConnectsExactlyIfAllAnswer` | src/jkbms/connection_manager.rs:170-214 | in any run an attempt to connect succeeds exactly if the port opens and all three polls answer, and then emits exactly their data and the connection; otherwise it stops at the first failure with one more link-down event |
| `ManagerOutcomes.RetriesFollow` | src/jkbms/connection_manager.rs:426-457 | a retry that keeps the link and leaves writes waiting is followed by the next at once if it succeeded, and after 250 ms if it failed |
| `ManagerOutcomes.FailedWritesAreRetried` | src/jkbms/connection_manager.rs:417-421 | a first attempt that fails and keeps the link is retried after 250 ms |
| `ManagerRuns.EventsAreBacked` | src/jkbms/connection_manager.rs:338-484 | every data event is what some poll of the run got, and every confirmation stands for a write that succeeded and carries the configuration polled right after it |
| `ManagerRuns.RunKeeps` | src/jkbms/connection_manager.rs:133-166 | the five invariants hold after start-up and after every handler, under any schedule |
| `ManagerRuns.AlarmsComeAfterDrains` | src/jkbms/connection_manager.rs:254-306 | in any run an alarm poll comes right after a frame poll or a switch write, never after another alarm poll or the opening |
| `ManagerTalks.PollingTalks` | src/jkbms/connection_manager.rs:254-306 | one polling turn keeps that order: when the last talk was an alarm poll, operational data is due by then and asked for first |
| `ManagerLine.ReadingsAreTheirOwn` | src/jkbms/connection_manager.rs:338-388 | end to end, device info, configuration and operational data that the manager emits are decoded from the frame sent for the very poll that asked for them |
| `ManagerLine.ConfirmationsAreTheirOwn` | src/jkbms/connection_manager.rs:462-484 | end to end, a confirmation comes from a write whose own acknowledgement accepted it, and carries the frame sent for the configuration poll right after that acknowledgement |
| `ManagerLine.AlarmsAreNotStale` | src/jkbms/protocol.rs:295-301 | in any run of the manager the line holds no byte of an earlier alarm response when alarms are asked for, only the end of the reply to the frame poll or write just before; if that succeeded, the alarms reported are those of the response to this poll |
| `ManagerEscalation.RetryMakesProgress` | src/jkbms/connection_manager.rs:426-506 | five times the waiting writes plus four, less the failures counted, falls on each retry that keeps the link |
| `ManagerEscalation.RetryingEnds` | src/jkbms/connection_manager.rs:426-457 | so the queue empties or the link drops within that many retries, for any outcomes and any delays between them |
| `ManagerEscalation.PollIsRecorded` | src/jkbms/connection_manager.rs:312-336 | a poll's answer alone decides what it adds to the link's history, and whether the link survives it |
| `ManagerEscalation.DirectWriteIsRecorded` | src/jkbms/connection_manager.rs:402-421 | the same for a write on an idle link, which waits afterwards exactly if it or its readback failed |
| `ManagerEscalation.RetryIsRecorded` | src/jkbms/connection_manager.rs:426-457 | the same for a retry, which takes the oldest fresh write off the queue exactly if it and its readback succeeded |
| `ManagerEscalation.FailuresAreTrailing` | src/jkbms/connection_manager.rs:215-228 | the failure count of a history is the length of its longest run of soft failures at the end |
| `ConnectionManager.JkBmsConnectionManager.RunLoop` | src/jkbms/connection_manager.rs:133-152 | the actor, started fresh and driven by any turns, reaches the state the theorems speak of |
| `ConnectionManager.JkBmsConnectionManager.Connect` | src/jkbms/connection_manager.rs:170-214 | one connect attempt refines the model's, from opening to resync, drop or backoff |
| `ConnectionManager.JkBmsConnectionManager.RunDataPolling` | src/jkbms/connection_manager.rs:254-306 | one polling turn refines the model's, of which `ManagerPolls` states exactly what it asks for |
| `ConnectionManager.JkBmsConnectionManager.WriteCommand` | src/jkbms/connection_manager.rs:392-421 | a write is tried, queued or refused as in the model, whole new state included |
| `ConnectionManager.JkBmsConnectionManager.RetryWrites` | src/jkbms/connection_manager.rs:426-457 | one retry turn: the eviction loop, then one attempt on the head |
| `ConnectionManager.JkBmsConnectionManager.HandleWriteError` | src/jkbms/connection_manager.rs:490-506 | a failed write drops the link or schedules its retry |
| `CoordinatorObjects.Coordinator.HandleIncoming` | src/coordinator/coordinator.rs:129-152 | a request freezes its switch under a new number, unless the channel refuses it |
| `CoordinatorObjects.Coordinator.HandleJkbmsEvent` | src/coordinator/coordinator.rs:154-234 | one event of the serial side: cache, freeze, counters and the calls published, in order, as `SystemReadings` states them for every reachable state |
| `CoordinatorObjects.Coordinator.HandleBrokerConnected` | src/coordinator/coordinator.rs:64-72 | a broker connection counts, subscribes and, if that was accepted, republishes availability, discovery and snapshot in this order |
| `CoordinatorObjects.Coordinator.BuildSnapshot` | src/coordinator/coordinator.rs:266-272 | the published snapshot is the merged cache, field by field, with the frozen switches and both counters; the switches come from the configuration, not from operational data |
| `CoordinatorObjects.SwitchFreeze.Apply` | src/coordinator/freeze.rs:41-53 | a confirmation clears each freeze that is not newer |
| `CoordinatorObjects.ComputeCellAggregates` | src/coordinator/aggregator.rs:149-177 | the loop finds sum, least and greatest cell, ties to the first |
| `CoordinatorSpec.MinCellIsFirstLeast` | src/coordinator/aggregator.rs:149-177 | the cell reported as lowest has the least voltage and no earlier cell has it |
| `CoordinatorSpec.MaxCellIsFirstGreatest` | src/coordinator/aggregator.rs:149-177 | the cell reported as highest has the greatest voltage and no earlier cell has it |
| `ModbusCrc.Crc16` | src/jkbms/protocol.rs:328-341 | the shift-register loops compute the CRC that the lemmas are about |
| `ModbusCrc.Residue` | src/jkbms/protocol.rs:343-347 | a message of any length followed by its own CRC, low byte first, has CRC 0 |
| `ModbusCrc.BytesAreBits` | src/jkbms/protocol.rs:328-341 | taking a byte at a time is feeding its bits to the register one by one, least significant first |
| `ModbusCrc.CrcIsRemainder` | src/jkbms/protocol.rs:328-341 | for any message the register, lowest bit first, is the remainder of long division by x^16 + x^15 + x^2 + 1 started from sixteen ones, as section 6.2.2 of MODBUS over Serial Line V1.02 defines it |
| `ModbusCrc.BurstChangesCrc` | src/jkbms/protocol.rs:328-341 | any change confined to sixteen consecutive bits, at any position of a message of any length, changes the CRC |
| `ModbusCrc.AdjacentBytesDetected` | src/jkbms/protocol.rs:398-408 | damage within two adjacent bytes is always detected |
| `Codec.TriggerReadsBack` | src/jkbms/protocol.rs:349-355 | a reader written from section 6.12 of the MODBUS Application Protocol V1.1b3 recovers slave, register and value from every trigger |
| `Codec.PollsReadBack` | src/jkbms/protocol.rs:368-378 | the three polls address registers 0x161C, 0x161E and 0x1620 |
| `Codec.WriteReadsBack` | src/jkbms/protocol.rs:357-366 | the same reader recovers slave, register and all 32 value bits, high word first, from every switch write |
| `Codec.CommandReadsBack` | src/jkbms/protocol.rs:380-386 | read back that way, the frame of every switch command tells that slave that switch and that value |
| `Codec.AlarmReadsBack` | src/jkbms/protocol.rs:388-392 | a reader written from section 6.3 recovers slave, register and quantity from the alarm request |
| `Codec.CrcIsUnique` | src/jkbms/protocol.rs:343-347 | a message has one valid CRC trailer only |
| `Codec.AlarmDecodesItsEncoding` | src/jkbms/protocol.rs:398-408 | an alarm response decodes to a value if and only if it is the unique encoding of that value for that slave |
| `Codec.DecodeAlarmResponse` | src/jkbms/protocol.rs:398-408 | the decoder computes what that equivalence is about, and fails on every other buffer |
| `Codec.Validate` | src/jkbms/protocol.rs:412-424 | a frame passes exactly if length, magic and sum are right, and the first of them that is wrong names the error |
| `Codec.OneByteIsNoticed` | src/jkbms/protocol.rs:412-424 | changing any one byte of an accepted frame, its sum byte included, gets it rejected |
| `Alignment.AlwaysAligned` | src/jkbms/protocol.rs:105-158 | after any calls, unread bytes on the line mean that a drain is owed |
| `Alignment.PollReadsItsOwnReply` | src/jkbms/protocol.rs:250-293 | after any history a poll that succeeds returns the bytes sent for that very request, and leaves the line empty |
| `Alignment.WriteReadsItsOwnAck` | src/jkbms/protocol.rs:303-322 | after any history a write that succeeds has read the acknowledgement of that very write |
| `Alignment.PollOutcome` | src/jkbms/protocol.rs:250-293 | whether or not a drain was owed, a poll succeeds if and only if its request goes out and 308 bytes arrive of which the first 300 are a frame; it owes a drain afterwards exactly if it failed softly, and fails hard exactly if the port did |
| `Alignment.WriteOutcome` | src/jkbms/protocol.rs:303-322 | a switch write succeeds if and only if its request goes out and the eight bytes that arrive name this slave and function code 0x10 |
| `Alignment.AlarmOutcome` | src/jkbms/protocol.rs:295-301 | on a clean line an alarm poll reports a value if and only if its request goes out and the nine bytes that encode this value arrive |
| `Alignment.PollsRecover` | src/jkbms/protocol.rs:105-158 | after any history, failures included, a poll whose frame arrives succeeds and leaves the line clean |
| `Alignment.WritesRecover` | src/jkbms/protocol.rs:303-322 | and so does a switch write whose acknowledgement arrives |
| `Alignment.AlarmKeepsAlignment` | src/jkbms/protocol.rs:295-301 | an alarm poll keeps the rule, and reads its own response when no drain was owed |
| `Alignment.AlarmAfterPollReadsItsOwn` | src/jkbms/connection_manager.rs:284-303 | an alarm poll right after a successful frame reads its own response |
| `Alignment.AlarmMayReadStale` | src/jkbms/protocol.rs:295-301 | a failing input: one documented alarm poll that times out before its response arrives, then a second one, which reports the late value whatever the true one is |
| `Alignment.AlarmsAreOwnUnlessDrainIsOwed` | src/jkbms/protocol.rs:295-301 | alarm polls that succeed can be trusted to have read their own response if and only if no drain is owed |
| `Alignment.HardErrorMayReadStale` | src/jkbms/protocol.rs:105-158 | a failing input: a poll that breaks before it read anything, on a port that keeps the bytes; the next poll returns the frame of the first one |
| `Alignment.PollsAreOwnIffNothingBegins` | src/jkbms/protocol.rs:250-293 | with no drain owed, every poll that succeeds reads its own reply if and only if the bytes left unread are none or cannot be the beginning of a frame |
| `Alignment.WritesAreOwnIffNothingBegins` | src/jkbms/protocol.rs:303-322 | and every switch write that succeeds reads its own acknowledgement if and only if the bytes left unread are none or cannot be the beginning of one that is accepted |
| `Alignment.HardErrorOwesNoDrain` | src/jkbms/protocol.rs:105-158 | what a hard error leaves is the end of the broken poll's reply, with no drain owed, and whatever part of it a reopened port keeps decides by that condition whether the next poll can be trusted |
| `Alignment.DrainIsBounded` | src/jkbms/protocol.rs:235-248 | a drain stops after at most 4159 bytes and 4160 reads however much keeps coming in, having removed a prefix of what was and came |
| `Protocol.JkBmsProtocol.DrainStale` | src/jkbms/protocol.rs:235-248 | the read loop is that drain, and terminates because every read that goes on adds to the total, even if the BMS never stops sending |
| `Protocol.JkBmsProtocol.PollFrame` | src/jkbms/protocol.rs:250-293 | drain, request, frame, trailing acknowledgement and check leave line and flag as the alignment lemmas assume |
| `Protocol.JkBmsProtocol.Write` | src/jkbms/protocol.rs:303-322 | the same for a switch write |
| `Protocol.JkBmsProtocol.PollAlarms` | src/jkbms/protocol.rs:295-301 | the same for an alarm poll, which never drains |
| `MqttRuns.EventsAlternate` | src/mqtt/connection_manager.rs:87-196 | over any run, broker events strictly alternate, connected first, if and only if no session accepts a second CONNACK |
| `MqttRuns.SecondConnAckRepeats` | src/mqtt/connection_manager.rs:155-163 | a failing run: one session with two CONNACKs reports two connections in a row |
| `MqttRuns.SessionLinks` | src/mqtt/connection_manager.rs:126-137 | a session reports each CONNACK it takes, and one disconnection exactly if it was connected and lost rather than told to stop |
| `MqttRuns.SessionTold` | src/mqtt/connection_manager.rs:126-196 | from its polls alone: a session reports, in order, exactly the requests received before its loop ended that somebody listened for; one nobody listens for ends it as told to stop; its dispatch side's outcome counts first; and it is stable exactly if it ended 30 s or more after its last CONNACK |
| `MqttRuns.RunTold` | src/mqtt/connection_manager.rs:68-85 | over any run the requests reported are exactly those of its sessions, once and in order, each session begins when the one before has been slept off, and the run goes on until a session is told to stop |
| `MqttRuns.SleepsFollowTheStreak` | src/mqtt/connection_manager.rs:68-83 | the sleep after j unstable sessions since the start or the last stable one is min(2 * 2^j, 30) s, hence 2 s after a stable one and 4 s after a first failure |
| `MqttRuns.BrokerCounters` | src/coordinator/coordinator.rs:62-76 | for any interleaving with the serial side, the coordinator's reconnect count is the connections it was told of less one, saturating, and its broker flag is the last link event |
| `MqttRuns.CoordinatorCountsSessions` | src/coordinator/coordinator.rs:62-76 | with one CONNACK a session, that count is connected sessions less one, and the flag is up exactly if the last session connected and is still running or was told to stop |
| `MqttConnectionManagers.MqttConnectionManager.Run` | src/mqtt/connection_manager.rs:68-85 | the session loop produces the log and the sleeps that the run lemmas describe |
| `MqttConnectionManagers.MqttConnectionManager.RunNewSession` | src/mqtt/connection_manager.rs:87-137 | a session ends with the dispatch side's outcome if it came first, the event loop's otherwise |
| `MqttConnectionManagers.MqttConnectionManager.RunEventloop` | src/mqtt/connection_manager.rs:140-196 | the poll loop reports and stops as the model does, and never connects in the future |
| `Decimals.DecimalReadsBack` | src/mqtt/formatter.rs:40-45 | a number is recovered from its decimal text |
| `EntitiesSpec.NameReadsBack` | src/mqtt/discovery.rs:22-488 | no two entities share an id, cell numbers of any size included |
| `EntitiesSpec.DiscoveryNames` | src/mqtt/discovery.rs:22-488 | the ids discovery spells out are, in its order, the names of the entities it announces |
| `EntitiesSpec.TopicPublications` | src/mqtt/formatter.rs:14-106 | the topics spelt out are, in their order, the names and readings of the published entities |
| `EntitiesSpec.KeyPublications` | src/mqtt/formatter.rs:118-256 | and so are the JSON keys, spelt out separately, with the same decimals |
| `EntityAgreement.DiscoveryIsDistinct` | src/mqtt/discovery.rs:22-488 | discovery announces no id twice, for any cell count |
| `EntityAgreement.PublicationsAreDistinct` | src/mqtt/formatter.rs:7-109 | no topic is published twice, for any snapshot |
| `EntityAgreement.JsonMatchesTopics` | src/mqtt/formatter.rs:111-259 | the JSON object's keys, listed apart from the topics, are exactly the per-entity ids, and each value is the one its topic carries, to the same number of decimals |
| `EntityAgreement.CellTopicsCarryTheirCells` | src/mqtt/formatter.rs:39-45 | cell k's topics carry the voltage and the resistance of slot k - 1 |
| `EntityAgreement.PackSays` | src/mqtt/formatter.rs:15-24 | topic and JSON key of each pack sensor carry that field of the snapshot with its decimals |
| `EntityAgreement.LifetimeSays` | src/mqtt/formatter.rs:24-37 | the same for capacity, cycles and runtime |
| `EntityAgreement.AggregatesSay` | src/mqtt/formatter.rs:48-55 | the same for the cell aggregates |
| `EntityAgreement.SensorsSay` | src/mqtt/formatter.rs:58-87 | the same for temperatures and the balancer |
| `EntityAgreement.StatusSays` | src/mqtt/formatter.rs:90-106 | the same for switches, alarms, age and counters |
| `EntityAgreement.ListingsAgree` | src/mqtt/discovery.rs:217-255 | discovery, topics and JSON name the same entities if and only if the snapshot has as many voltages and resistances as were announced, and aggregates |
| `EntityAgreement.CoordinatorListingsAgree` | src/coordinator/aggregator.rs:69-82 | for what the coordinator announces and publishes that is so if and only if the configured cell count is 1 to 16 |
| `CellCounts.AnyCellCountIsReached` | src/coordinator/aggregator.rs:69-82 | for every configured cell count, 0 and 17 included, a run of the composed system reaches a snapshot with it, and agreement there holds if and only if it is 1 to 16 |
| `Entities.BuildPayloads` | src/mqtt/discovery.rs:7-491 | the builder announces exactly that listing, id by id, voltage and resistance of each cell together |
| `Entities.PerEntityPublications` | src/mqtt/formatter.rs:7-109 | the builder publishes exactly that listing, topic by topic, all voltages before all resistances |
| `Entities.SnapshotJson` | src/mqtt/formatter.rs:111-259 | insertions key by key build exactly that object |

## Left out

- ManagerRuns.OutageTiming: handlers take time only in outside calls, so a delay is at least its nominal length; timer granularity is not modelled.
- ManagerRuns.WireDiscipline: repeated attempts of one write count as in order; the link below the protocol may still lose or repeat bytes.
- SystemRuns.QuiescentAgreement: speaks of the snapshot handed to the MQTT side; whether its channel had room is not modelled.
- Alignment.AlwaysAligned: assumes that no response is longer than documented, that late bytes number at most 4096 and arrive before a drain ends, and that a port lost to a hard error takes its unread bytes along.
- Alignment.PollReadsItsOwnReply: the frame type byte is not compared with the request, as the decoders do not look at it either.
- ManagerLine.AlarmsAreNotStale: when the call before the alarm poll failed, what a successful alarm poll reads may begin with the end of that call's reply.
- Entities.BuildPayloads: topic prefixes, names, units and other discovery metadata are not modelled.
- Entities.SnapshotJson: a reading is a number with its decimals, a whole number, a switch, or the number a text is made from; the text itself is not modelled.
- Sequence numbers, session numbers and the attempt counter do not overflow in the model; the two reconnect counters saturate at 32 bits as in the source.
- The serial port, rumqttc, the health check socket, configuration, logging, password redaction and task supervision are outside calls or absent.
- What a session's dispatch side makes of each command it takes: only how that side ends is part of a session's script.
- The inter-frame gap before a request only delays it, and delays are arbitrary already.
- The end of the manager's and the coordinator's loops on a closed channel or a shutdown signal: a run is any prefix.
- Offsets of fields inside a frame and the wording of alarm texts and ISO durations are left out as easy members.
- Fairness and liveness: which source `select!` picks is arbitrary, so only safety, counts and measures are stated.
- Rounding of readings: the source uses floating point, the model exact numbers, and no bound on rounded averages is claimed.
