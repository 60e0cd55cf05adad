# Verification of the TSN switch software and the packetized PLC

This project models the parts of the repository that carry time and schedules, and proves what they
are for. The main part is the IEEE 802.1AS time-synchronization stack: 96-bit fixed-point time, the
peer-delay protocol between two nodes, Sync transfer through any number of nodes, and the clock
machines at both ends. Beside it stand the gate-control-list compiler of the switch, and from the PLC
the calendar and timer library and the Modbus register and coil maps.

## How it is built

Every state machine appears twice. Functions on a value `Machine` give one run: the entry action of a
new state, its exit conditions, again until nothing changes (`Turn`, `RunLoop`, `RunToRest`), and
`Handle` for each event. A class holds the same fields, updates them in place with the loop of the
code, and each of its methods is proved to leave exactly the state `Handle` gives. The termination
measures (`TurnMakesProgress`) hold in every state, reachable or not. What one event does to a machine
at rest is also said directly, without turns, and proved to be what the loop amounts to (`SentExactly`,
`HandleIs`, `HandleIsResult`, `ClockIsSet`, `RunSendsIfDue`, `RequestTakenOnce`, `RequestWhenIdle`).
Properties are then proved of `Handle` over all sequences of events. Ghost logs record what was sent,
received and accepted.

- `Words`: machine words as integers, their digits and bits.
- `ScaledTime`: UScaledNs against integers modulo 2^96, and what the clocks read.
- `SampleRing`: the circular list of paired timestamps both rate computations use.
- `PtpMessages`: message contents.
- `PdelayRequester`, `PdelayRequesterRuns`: MDPdelayReqSM and its runs.
- `PdelaySteps`: what one event makes of it at rest, and that it goes on.
- `PdelayExchanges`, `PdelayTolerance`: whole exchanges, and what many of them in a row lead to.
- `PdelayResponder`: MDPdelayRespSM.
- `PdelayEpoch`, `PdelayProtocol`, `PdelayAccuracy`: both ends over lossy FIFO links, and the delay computed.
- `SyncSender`, `SyncReceiver`: MDSyncSendSM, MDSyncReceiveSM.
- `ClockMasterReceiver`, `ClockMasterSender`, `ClockSlave`, `ClockPeriod`: the clocks at both ends.
- `TimeTransfer`, `SyncChain`: grandmaster time over one link, and along chains of running machines.
- `FrameCodec`, `TimestampQueue`: frames on the wire, and matching them with ingress timestamps.
- `GateControl`, `GateSchedule`: the gate-control-list compiler and what its list means.
- `Calendar`, `IecTimers`: the IEC 61131-3 library.
- `ModbusRegisters`, `ModbusCoils`: the Modbus maps.

Clocks, timestamping units, `rand()` and the results of floating-point quotients are inputs of a run.
C integers are given by their ranges and wrap where the code lets them wrap.

## What turned out to fail

The lemmas named say when each of these happens.

- `uscaledns_add` carries at 0xFFFF (`AddThenSubtract`, `CorrectionExact`); `uscaledns_mul` by a ratio
  is right only for products below 2^32 ns (`MultiplyByRatio`, `MultiplyByOne`).
- A second Pdelay_Req that arrives before the transmit timestamp of the first response leaves the
  responder silent until its port is reset (`SpeaksExactly`, `StuckUntilPortChanges`, `PortResetFrees`).
- If that second request has the id of the first one, the follow-up is sent and the response to the
  second one is made from a null request (`StampCrashesExactly`, `RepeatedRequestCrashes`).
- One response that arrives after its request was given up makes every later prompt exchange of the
  requester fail (`MeasuredExactly`, `OneLateResponse`, `BelatedForever`).
- If the departure of a request is never reported, the requester never sends another one: its sending
  states have no timeout (`WaitsForDeparture`). Whatever else is lost, the next request is sent
  (`NextRequestIsSent`).
- The requester ends its process if either clock starts over, after 2^32 seconds, between the two
  timestamps it takes of an exchange (`PropTimeExact`, `FatalOnlyOnWrap`).
- A Follow_Up is built from the data held when the timestamp of its Sync arrives (`FollowUpIsSent`).
  If newer data has replaced that of the Sync and its source time was taken after the Sync left, or if
  the sender's clock has started over since, it tells a wrong time, with a correction that should be
  negative read as a huge one (`CorrectionOf`, `FollowUpTells`; over runs `SentFollowUpTells`).
- BEGIN and a disabled instance force a machine to its first state, but do not stop it there: the Sync
  sender in INITIALIZING, the Sync receiver in DISCARD, the master clock in INITIALIZING and a requester
  whose port is up go on from it in the same run (`HeldDownStillSends`, `SentExactly`, `HandleIs`,
  `RunSendsIfDue`, `HandleIsResult`).
- A Sync with id 65535 never gets its timestamp (`AcceptedExactly`, `StuckAt65535`).
- The master clock's indications stop, until the instance is initialized again, once the time of the
  next one is past the last reading of its clock, which starts over (`DueBeforeRollover`,
  `SilentAfterRollover`).
- A window that ends strictly inside another one, at an instant where none begins, costs the rest of
  the other its gate; overlapping alone does not (`FaithfulExactly`, `OverlapLosesGate`).
- First-of-month dates come out as a day past the end of the month before (`MonthRightExactly`).
- Unmapped wide Modbus registers read their low byte twice (`ReadAfterWrite`); address 1024 is looked up
  past the end of the output table (`ReadHoldingRegisters`, `WriteRegister`).
- `pop_queue` reports the length of the next frame (`BufferQueue.Pop`).

`ClockMasterSyncSend` fills upstreamTxTime with the current time where the standard has the local
time, and `setPSSyncPSSR` leaves gmTimeBaseIndicator and lastGmPhaseChange unset. The model follows the
code in the first; of the two fields the relays here say nothing.

## Model

| member | source | states |
|---|---|---|
| ScaledTime.Subtract | Software/Time-Synchronization/tsn_drivers/ptp_types.c:81-112 | the borrow chain is subtraction modulo 2^96 for all inputs |
| ScaledTime.Add | Software/Time-Synchronization/tsn_drivers/ptp_types.c:131-147 | addition modulo 2^96, one ns too high exactly when the low digits sum to 0xFFFF |
| ScaledTime.CheckOverflow | Software/Time-Synchronization/tsn_drivers/ptp_types.c:114-129 | the carry judged from the wrapped sum is the true carry out of 64 bits |
| ScaledTime.DivideBy2 | Software/Time-Synchronization/tsn_drivers/ptp_types.c:254-266 | the digit-wise shift halves the value, rounding down |
| ScaledTime.Compare | Software/Time-Synchronization/tsn_drivers/ptp_types.c:277-293 | the digit-wise comparison orders values |
| ScaledTime.ToUint64 | Software/Time-Synchronization/tsn_drivers/ptp_types.c:295-300 | the 64-bit form is the value modulo 2^64 |
| ScaledTime.Uint64RoundTrip | Software/Time-Synchronization/tsn_drivers/ptp_types.c:295-308 | the 64-bit correction form round-trips if and only if the value is below 2^64 |
| ScaledTime.ToPtp | Software/Time-Synchronization/tsn_drivers/ptp_types.c:316-331 | nanoseconds below a second, no upper seconds; only whole periods of 2^32 s are dropped |
| ScaledTime.PtpRoundTrip | Software/Time-Synchronization/tsn_drivers/ptp_types.c:316-331 | the message timestamp round-trips if and only if the time is whole ns with 32-bit seconds |
| ScaledTime.AddThenSubtract | Software/Time-Synchronization/tsn_drivers/ptp_types.c:81-147 | adding and subtracting cancel if and only if the addition does not carry early |
| ScaledTime.SubtractThenAdd | Software/Time-Synchronization/tsn_drivers/ptp_types.c:81-147 | subtracting and adding cancel if and only if the minuend's low digit is not 0xFFFF |
| ScaledTime.MultiplyByRatio | Software/Time-Synchronization/tsn_drivers/ptp_types.c:149-183 | the product with a ratio below 2^16 is right if and only if it is below 2^32 ns; otherwise its third limb is 16 bits too low |
| ScaledTime.MultiplyByOne | Software/Time-Synchronization/tsn_drivers/ptp_types.c:149-183 | multiplying by 1.0 is the identity if and only if the ns part is below 2^32 |
| ScaledTime.Elapsed | Software/Time-Synchronization/tsn_drivers/ptp_types.c:81-112 | the difference of two readings of a wrapping clock is the time between them |
| SampleRing.WindowIsRecent | Software/Time-Synchronization/time_sync/md_pdelay_req_sm.c:491-504 | after any mix of additions and restarts the list is exactly the most recent samples, at most the capacity since the last restart |
| SampleRing.Ring.Add | Software/Time-Synchronization/time_sync/clock_slave_sync_sm.c:152-165 | index handling on the paired arrays is appending to that window, dropping the oldest when full |
| SampleRing.Ring.DropOlder | Software/Time-Synchronization/time_sync/clock_slave_sync_sm.c:61-65 | head := tail keeps exactly the newest sample |
| SampleRing.Ring.Ends | Software/Time-Synchronization/time_sync/md_pdelay_req_sm.c:81-98 | head and tail index the oldest and the newest sample written |
| PdelayRequester.TurnMakesProgress | Software/Time-Synchronization/time_sync/md_pdelay_req_sm.c:371-426 | the run loop ends from every state |
| PdelayRequester.RunEndsInFixpoint | Software/Time-Synchronization/time_sync/md_pdelay_req_sm.c:379-425 | a run ends where another turn would change nothing (unless it ended the process) |
| PdelayRequester.MDPdelayReqSM.constructor | Software/Time-Synchronization/time_sync/md_pdelay_req_sm.c:469-489 | initialization and first run |
| PdelayRequester.MDPdelayReqSM.Run | Software/Time-Synchronization/time_sync/md_pdelay_req_sm.c:371-426 | the loop on the fields ends in the state RunToRest gives |
| PdelayRequester.MDPdelayReqSM.ComputeRateRatio | Software/Time-Synchronization/time_sync/md_pdelay_req_sm.c:76-108 | one ratio or a restart of the sample list, as specified by UpdateRatio |
| PdelayRequester.MDPdelayReqSM.EnterInterval | Software/Time-Synchronization/time_sync/md_pdelay_req_sm.c:320-358 | the measuring entry action |
| PdelayRequester.MDPdelayReqSM.TxTimestamp | Software/Time-Synchronization/time_sync/md_pdelay_req_sm.c:428-443 | a timestamp is taken only in a sending state and with the current id |
| PdelayRequester.MDPdelayReqSM.RecvResp | Software/Time-Synchronization/time_sync/md_pdelay_req_sm.c:445-457 | t2 before the run, t4 after it |
| PdelayRequester.MDPdelayReqSM.RecvFollowUp | Software/Time-Synchronization/time_sync/md_pdelay_req_sm.c:459-467 | t3 before the run |
| PdelayRequesterRuns.RequesterSafety | Software/Time-Synchronization/time_sync/md_pdelay_req_sm.c:170-443 | over every interleaving from creation: ids of an epoch consecutive, requests an interval apart, past SEND t1 is the outstanding request's timestamp, no timestamp flag left over |
| PdelayRequesterRuns.SendIsEnteredClean | Software/Time-Synchronization/time_sync/md_pdelay_req_sm.c:196-235 | from creation, over all events, in no turn of any run is SEND entered early or with the timestamp flag set |
| PdelayRequesterRuns.IntervalActionEffects | Software/Time-Synchronization/time_sync/md_pdelay_req_sm.c:320-358 | at most one measurement, of the timestamps held; a fatal exit only on timestamps that are refused |
| PdelaySteps.RunIsOutcome | Software/Time-Synchronization/time_sync/md_pdelay_req_sm.c:148-426 | the turns of a run from any waiting state, with whatever has just been received, add up to one step |
| PdelaySteps.HandleIsResult | Software/Time-Synchronization/time_sync/md_pdelay_req_sm.c:371-467 | so does every event, and leaves the machine waiting again or the process ended |
| PdelaySteps.EvaluationIs | Software/Time-Synchronization/time_sync/md_pdelay_req_sm.c:76-108 | a complete exchange adds its sample, sets ratio and delay, and is judged; an outlier restarts the samples |
| PdelaySteps.NextRequestIsSent | Software/Time-Synchronization/time_sync/md_pdelay_req_sm.c:196-369 | over every run, once a request has left, the first tick at or past the interval sends the next one, whatever was lost, and an unfinished exchange counts as a loss |
| PdelaySteps.WaitsForDeparture | Software/Time-Synchronization/time_sync/md_pdelay_req_sm.c:187-235 | without the report of its request's departure no event makes the requester send again |
| PdelayExchanges.PromptExchangeMeasures | Software/Time-Synchronization/time_sync/md_pdelay_req_sm.c:224-358 | a prompt, correct exchange that no held response interferes with is measured once with its own four timestamps, or ends the process on ones that are refused |
| PdelayExchanges.MeasuredExactly | Software/Time-Synchronization/time_sync/md_pdelay_req_sm.c:224-358 | from rest with any request out, a prompt, correct exchange is measured or refused if and only if no response was held before |
| PdelayExchanges.BelatedForever | Software/Time-Synchronization/time_sync/md_pdelay_req_sm.c:196-289 | while a response to an earlier request is held, no number of exchanges answered in time is ever measured |
| PdelayExchanges.OneLateResponse | Software/Time-Synchronization/time_sync/md_pdelay_req_sm.c:187-289 | one response to an earlier request, arriving while a later one is out, is enough for that |
| PdelayExchanges.OneLateResponseWhileWaiting | Software/Time-Synchronization/time_sync/md_pdelay_req_sm.c:237-289 | so is one that arrives while the response to the later request is awaited |
| PdelayTolerance.OwnAnswersTolerated | Software/Time-Synchronization/time_sync/md_pdelay_req_sm.c:332-356 | rounds answered by the own clock cost capability at the (allowedFaults + 2)nd in a row and not before |
| PdelayTolerance.OtherAnswerSettles | Software/Time-Synchronization/time_sync/md_pdelay_req_sm.c:320-344 | a whole exchange with another clock leaves the port capable if and only if the delay is within the threshold and the ratio valid |
| PdelayTolerance.LossesTolerated | Software/Time-Synchronization/time_sync/md_pdelay_req_sm.c:196-222 | rounds whose response or follow-up is lost, in any mixture, cost capability at the (allowedLostResponses + 2)nd in a row and not before |
| PdelayResponder.TurnMakesProgress | Software/Time-Synchronization/time_sync/md_pdelay_resp_sm.c:173-209 | the run loop ends from every state |
| PdelayResponder.RunEndsInFixpoint | Software/Time-Synchronization/time_sync/md_pdelay_resp_sm.c:177-203 | a run ends where another turn would change nothing (unless it ended the process) |
| PdelayResponder.MDPdelayRespSM.Run | Software/Time-Synchronization/time_sync/md_pdelay_resp_sm.c:173-209 | the loop on the fields ends in the state RunToRest gives |
| PdelayResponder.MDPdelayRespSM.RecvReq | Software/Time-Synchronization/time_sync/md_pdelay_resp_sm.c:227-236 | a new request replaces the one held |
| PdelayResponder.MDPdelayRespSM.TxTimestamp | Software/Time-Synchronization/time_sync/md_pdelay_resp_sm.c:211-225 | a timestamp is taken only for the request held; the null request is used exactly where the code would |
| PdelayEpoch.EpochBegins | Software/Time-Synchronization/time_sync/md_pdelay_req_sm.c:161-194 | enabling the port starts an epoch with one request out, whatever was left behind |
| PdelayEpoch.MeasureKeeps | Software/Time-Synchronization/time_sync/md_pdelay_req_sm.c:291-358 | when a measurement is entered all four timestamps are those of the outstanding exchange |
| PdelayEpoch.RespKeepsRequester | Software/Time-Synchronization/time_sync/md_pdelay_req_sm.c:445-457 | a response keeps the invariant although t4 is stored after the run |
| PdelayEpoch.FollowUpKeepsRequester | Software/Time-Synchronization/time_sync/md_pdelay_req_sm.c:459-467 | a follow-up keeps the invariant |
| PdelayProtocol.StartReached | Software/Time-Synchronization/time_sync/md_pdelay_req_sm.c:161-194 | such an epoch beside an idle responder is a start of the two-node system |
| PdelayProtocol.CreatedResponderIsIdle | Software/Time-Synchronization/time_sync/md_pdelay_resp_sm.c:238-251 | initialization leaves the responder idle with nothing sent |
| PdelayProtocol.RequestWhenIdle | Software/Time-Synchronization/time_sync/md_pdelay_resp_sm.c:126-151 | an idle responder answers a request in the same run |
| PdelayProtocol.StampWhenBusy | Software/Time-Synchronization/time_sync/md_pdelay_resp_sm.c:145-171 | the timestamp of its response sends the follow-up in the same run |
| PdelayProtocol.StampCrashesExactly | Software/Time-Synchronization/time_sync/md_pdelay_resp_sm.c:139-171 | at the awaited timestamp a null request is used if and only if a second request has arrived |
| PdelayProtocol.RepeatedRequestCrashes | Software/Time-Synchronization/time_sync/md_pdelay_resp_sm.c:139-236 | two requests with one id before the timestamp of the first response lead there |
| PdelayProtocol.StepKeeps | Software/Time-Synchronization/time_sync/md_pdelay_req_sm.c:371-467 | every step of either node or of the links keeps the system invariant |
| PdelayProtocol.PeerDelaySafety | Software/Time-Synchronization/time_sync/md_pdelay_req_sm.c:110-467 | over lossy FIFO links and every interleaving, within 2^16 requests: every measurement uses the four timestamps of one exchange, fatal exits only on such timestamps, the responder never uses a null request |
| PdelayProtocol.SecondRequestSticks | Software/Time-Synchronization/time_sync/md_pdelay_resp_sm.c:145-236 | a request that arrives while a response's departure is awaited gets the responder stuck |
| PdelayProtocol.SpeaksExactly | Software/Time-Synchronization/time_sync/md_pdelay_resp_sm.c:145-225 | a responder awaiting its response's departure sends at some report of a departure if and only if no second request has arrived |
| PdelayProtocol.StuckUntilPortChanges | Software/Time-Synchronization/time_sync/md_pdelay_resp_sm.c:145-236 | stuck, it sends nothing over any steps of the nodes and links other than a change of its port |
| PdelayProtocol.PortResetFrees | Software/Time-Synchronization/time_sync/md_pdelay_resp_sm.c:105-137 | taking the port down for one run and up again makes it idle |
| PdelayAccuracy.PropTimeIs | Software/Time-Synchronization/time_sync/md_pdelay_req_sm.c:110-146 | for any four timestamps and any ratio below 2^16: half of the scaled round trip less the residence, or the end of the process |
| PdelayAccuracy.PropTimeExact | Software/Time-Synchronization/time_sync/md_pdelay_req_sm.c:110-146 | for equal-rate clocks of any offset that start over after 2^32 s, the result is the mean of the true delays if and only if neither starts over between its two timestamps and the round trip is below 2^32 ns; below that, the process ends if and only if one does |
| PdelayAccuracy.MeasuredDelayIsTrue | Software/Time-Synchronization/time_sync/md_pdelay_req_sm.c:110-467 | over every run of the two nodes a delay measured with ratio 1.0 is the mean of that exchange's true delays |
| PdelayAccuracy.FatalOnlyOnWrap | Software/Time-Synchronization/time_sync/md_pdelay_req_sm.c:121-142 | over every run such a requester ends the process only if a clock started over during that exchange |
| SyncSender.TurnMakesProgress | Software/Time-Synchronization/time_sync/md_sync_send_sm.c:165-191 | the run loop ends from every state |
| SyncSender.RunEndsInFixpoint | Software/Time-Synchronization/time_sync/md_sync_send_sm.c:168-190 | a run ends where another turn would change nothing |
| SyncSender.MDSyncSendSM.Run | Software/Time-Synchronization/time_sync/md_sync_send_sm.c:165-191 | the loop on the fields ends in the state RunToRest gives |
| SyncSender.MDSyncSendSM.RecvMDSync | Software/Time-Synchronization/time_sync/md_sync_send_sm.c:215-224 | new data replaces the old and starts a run |
| SyncSender.MDSyncSendSM.TxTimestamp | Software/Time-Synchronization/time_sync/md_sync_send_sm.c:226-243 | the timestamp check, made in int |
| SyncSender.SenderSafety | Software/Time-Synchronization/time_sync/md_sync_send_sm.c:101-243 | over every run Sync and Follow_Up alternate, ids of an epoch are consecutive, each Follow_Up has its Sync's id and egress timestamp, no data is sent in two Syncs |
| SyncSender.SentExactly | Software/Time-Synchronization/time_sync/md_sync_send_sm.c:101-191 | an event makes the sender send the Follow_Up and the Sync, with which contents, if and only if they are due: a Sync only through a port that is up, asCapable and not in asymmetry mode |
| SyncSender.HeldDownStillSends | Software/Time-Synchronization/time_sync/md_sync_send_sm.c:101-121 | under BEGIN or with the instance disabled, data for a port that is up is sent if and only if the sender is in INITIALIZING already |
| SyncSender.SentWhenDue | Software/Time-Synchronization/time_sync/md_sync_send_sm.c:101-243 | from creation, over every run, exactly what was due at each event has been sent |
| SyncSender.SyncIsSent | Software/Time-Synchronization/time_sync/md_sync_send_sm.c:128-163 | data that may be sent is sent in the run it starts |
| SyncSender.FollowUpIsSent | Software/Time-Synchronization/time_sync/md_sync_send_sm.c:138-163 | the Sync's timestamp sends its Follow_Up, from the newest data, in the run it starts, and then a Sync if that data is new |
| SyncSender.AcceptedExactly | Software/Time-Synchronization/time_sync/md_sync_send_sm.c:226-234 | a timestamp is taken if and only if it is the last Sync's and the id is not 65535 |
| SyncSender.StuckAt65535 | Software/Time-Synchronization/time_sync/md_sync_send_sm.c:226-234 | after a Sync with id 65535 nothing is sent until a reset |
| SyncReceiver.TurnMakesProgress | Software/Time-Synchronization/time_sync/md_sync_receive_sm.c:117-147 | the run loop ends from every state despite the REACTION restart |
| SyncReceiver.RunEndsInFixpoint | Software/Time-Synchronization/time_sync/md_sync_receive_sm.c:122-146 | a run ends where another turn would change nothing |
| SyncReceiver.MDSyncReceiveSM.Run | Software/Time-Synchronization/time_sync/md_sync_receive_sm.c:117-147 | the loop on the fields ends in the state RunToRest gives |
| SyncReceiver.MDSyncReceiveSM.RecvSync | Software/Time-Synchronization/time_sync/md_sync_receive_sm.c:169-178 | a Sync and its ingress time are stored together |
| SyncReceiver.ReceiverSafety | Software/Time-Synchronization/time_sync/md_sync_receive_sm.c:50-190 | over every run each emission pairs equal ids, uses its Sync's own ingress time, and uses later Syncs and Follow_Ups than the one before |
| SyncReceiver.HandleIs | Software/Time-Synchronization/time_sync/md_sync_receive_sm.c:29-190 | the turns of a run add up to one step for every event: held, emitted with these contents, given up, or kept |
| SyncReceiver.SyncIsHeld | Software/Time-Synchronization/time_sync/md_sync_receive_sm.c:64-100 | a Sync is held, in place of an earlier one, for one second |
| SyncReceiver.FollowUpIsAnswered | Software/Time-Synchronization/time_sync/md_sync_receive_sm.c:86-107 | its Follow_Up is emitted in the same run |
| SyncReceiver.TimeoutDiscards | Software/Time-Synchronization/time_sync/md_sync_receive_sm.c:95-98 | without one the Sync is given up exactly from the timeout on |
| ClockMasterReceiver.TurnMakesProgress | Software/Time-Synchronization/time_sync/clock_master_sync_receive_sm.c:106-131 | the run loop ends from every state despite the REACTION restart |
| ClockMasterReceiver.RunEndsInFixpoint | Software/Time-Synchronization/time_sync/clock_master_sync_receive_sm.c:110-130 | a run ends where another turn would change nothing |
| ClockMasterReceiver.ClockMasterSyncReceiveSM.Run | Software/Time-Synchronization/time_sync/clock_master_sync_receive_sm.c:106-131 | the loop on the fields ends in the state RunToRest gives |
| ClockMasterReceiver.RequestTakenOnce | Software/Time-Synchronization/time_sync/clock_master_sync_receive_sm.c:79-156 | a source time is acted on exactly once if and only if it is not lost to a reset |
| ClockMasterReceiver.LocalTickRepeats | Software/Time-Synchronization/time_sync/clock_master_sync_receive_sm.c:67-104 | the tick flag, which nothing sets, would put the last source time in force again |
| ClockMasterReceiver.EachRequestOnce | Software/Time-Synchronization/time_sync/clock_master_sync_receive_sm.c:79-156 | over every run from creation the requests acted on are those not lost, once each, in order; master and local time are the source time in force |
| ClockMasterSender.ClockMasterSyncSendSM.Run | Software/Time-Synchronization/time_sync/clock_master_sync_send_sm.c:106-130 | the loop on the fields ends, for every clock reading, in the state RunToRest gives |
| ClockMasterSender.SecondIsLater | Software/Time-Synchronization/time_sync/clock_master_sync_send_sm.c:76-104 | a second after any clock reading is later than it, which is what ends the loop |
| ClockMasterSender.TurnMakesProgress | Software/Time-Synchronization/time_sync/clock_master_sync_send_sm.c:106-130 | the run loop ends from every state despite the REACTION restart |
| ClockMasterSender.RunEndsInFixpoint | Software/Time-Synchronization/time_sync/clock_master_sync_send_sm.c:110-129 | a run ends where another turn would change nothing |
| ClockMasterSender.RunSendsIfDue | Software/Time-Synchronization/time_sync/clock_master_sync_send_sm.c:89-104 | a run sends exactly one indication, with these contents, if it is due and none otherwise, or begins anew when held down |
| ClockMasterSender.IndicationsSpaced | Software/Time-Synchronization/time_sync/clock_master_sync_send_sm.c:68-130 | over every run from creation indications of an epoch are at least a second apart |
| ClockMasterSender.DueBeforeRollover | Software/Time-Synchronization/time_sync/clock_master_sync_send_sm.c:80-104 | a reading the next indication is due at exists if and only if its time is not past the last reading of the clock |
| ClockMasterSender.SilentAfterRollover | Software/Time-Synchronization/time_sync/clock_master_sync_send_sm.c:80-130 | past that, no runs send anything |
| ClockSlave.OffsetOf | Software/Time-Synchronization/time_sync/clock_slave_sync_sm.c:98-126 | local time with the written offset applied is the synchronized time |
| ClockSlave.ClockSlaveSyncSM.Indicate | Software/Time-Synchronization/time_sync/clock_slave_sync_sm.c:167-207 | the receipt, one sample, one offset, and the period |
| ClockSlave.ClockSlaveSyncSM.UpdatePeriod | Software/Time-Synchronization/time_sync/clock_slave_sync_sm.c:34-93 | when the period is rewritten, and the registers with it, and when the sample list restarts |
| ClockSlave.ClockSlaveSyncSM.Run | Software/Time-Synchronization/time_sync/clock_slave_sync_sm.c:234-258 | the loop on the fields ends in the state RunToRest gives |
| ClockSlave.TurnMakesProgress | Software/Time-Synchronization/time_sync/clock_slave_sync_sm.c:234-258 | the run loop ends from every state despite the REACTION restart |
| ClockSlave.RunEndsInFixpoint | Software/Time-Synchronization/time_sync/clock_slave_sync_sm.c:237-257 | a run ends where another turn would change nothing |
| ClockSlave.PssTakenOnce | Software/Time-Synchronization/time_sync/clock_slave_sync_sm.c:167-232 | a PortSyncSync is acted on exactly once if and only if it is not lost to a reset |
| ClockSlave.EachPssOnce | Software/Time-Synchronization/time_sync/clock_slave_sync_sm.c:130-258 | over every run from creation: once each, in order, one offset each, and the samples are the most recent ones |
| ClockSlave.LocalTickIsIdle | Software/Time-Synchronization/time_sync/clock_slave_sync_sm.c:140-218 | the tick flag, which nothing sets, would change neither time nor period |
| ClockSlave.ClockIsSet | Software/Time-Synchronization/time_sync/clock_slave_sync_sm.c:34-207 | a slave not lost to a reset sets its time; its period, in field and registers, if and only if a usable rate was taken; a rate other than 1 restarts the samples |
| ClockSlave.PeriodFollows | Software/Time-Synchronization/time_sync/clock_slave_sync_sm.c:34-258 | over every run from creation at 8 ns each usable rate is written once, to the nearest, in order, and the last one is in force |
| ClockPeriod.FractionBits | Software/Time-Synchronization/time_sync/clock_slave_sync_sm.c:70-78 | the bit loop loses nothing: bits and remainder add up to the fraction |
| ClockPeriod.ToRegisters | Software/Time-Synchronization/time_sync/clock_slave_sync_sm.c:69-88 | loop, rounding and carry give the rounded period, ties included |
| ClockPeriod.RegistersNearest | Software/Time-Synchronization/time_sync/clock_slave_sync_sm.c:69-88 | that is within half a unit if and only if rounding does not carry out of the registers |
| TimeTransfer.IndicationCarries | Software/Time-Synchronization/time_sync/clock_master_sync_send_sm.c:30-53 | an indication carries grandmaster time, less the source time's fraction of a ns, modulo the times its clock has started over |
| TimeTransfer.CorrectionExact | Software/Time-Synchronization/time_sync/md_sync_send_sm.c:45-58 | the correction sent is the one received plus the residence time if and only if nothing carries early and it fits 64 bits |
| TimeTransfer.CorrectionOf | Software/Time-Synchronization/time_sync/md_sync_send_sm.c:45-58 | the correction sent is the time from the source time to the egress less the periods the clock has started over, modulo 2^64, also for an egress before either |
| TimeTransfer.FollowUpTells | Software/Time-Synchronization/time_sync/md_sync_send_sm.c:45-75 | origin + correction is grandmaster time at the Sync's egress if and only if the source time precedes the egress by less than 2^64 units and the clock has not started over, whenever the data arrived |
| TimeTransfer.HopCarries | Software/Time-Synchronization/time_sync/md_sync_receive_sm.c:29-44 | what a receiver with any clock offset makes of a Sync and such a Follow_Up over a known delay carries grandmaster time on |
| SyncChain.SentFollowUpTells | Software/Time-Synchronization/time_sync/md_sync_send_sm.c:45-153 | the same if-and-only-if for every Follow_Up of every run of the sender |
| SyncChain.PairedAsSent | Software/Time-Synchronization/time_sync/md_sync_receive_sm.c:86-107 | over every run of the receiver and whatever the link loses or reorders, each emission is made from a Sync and the Follow_Up sent right after it |
| SyncChain.EmissionTells | Software/Time-Synchronization/time_sync/md_sync_receive_sm.c:29-107 | and carries grandmaster time if that Follow_Up's data was in time |
| SyncChain.EpochIdsDistinct | Software/Time-Synchronization/time_sync/md_sync_send_sm.c:107-136 | the ids of up to 2^16 Syncs are distinct while the sender is not initialized again |
| SyncChain.GrandmasterTimeIsCarried | Software/Time-Synchronization/time_sync/port_sync_sync_send_sm.c:31-129 | over a chain of any length and any runs of its machines, a Follow_Up whose data came in time so far tells grandmaster time at its egress if and only if the data was in time for its Sync too |
| SyncChain.SlaveOffsetIsTrue | Software/Time-Synchronization/time_sync/clock_slave_sync_sm.c:98-196 | the offset computed turns the clock's reading at arrival into grandmaster time within 1 ns |
| SyncChain.SlaveFollowsGrandmaster | Software/Time-Synchronization/time_sync/site_sync_sync_sm.c:26-38 | a slave machine given an emission at the end of such a chain writes one offset, that one, in the run it starts |
| FrameCodec.SwapInvolution | Software/Time-Synchronization/time_sync/msg_frame.c:6-80 | each byte swap undoes itself |
| FrameCodec.SwappedIsNetworkOrder | Software/Time-Synchronization/time_sync/msg_frame.c:6-80 | a swapped field lies in memory most significant byte first |
| FrameCodec.HeaderLayout | Software/Time-Synchronization/time_sync/msg_frame.c:91-110 | on the wire the header's fields lie in this order and width, most significant byte first |
| FrameCodec.FollowUpLayout | Software/Time-Synchronization/time_sync/eth_frame.c:276-319 | likewise the Follow_Up's |
| FrameCodec.FieldStands | Software/Time-Synchronization/time_sync/eth_frame.c:276-319 | each field begins after as many bytes as the fields before it are wide |
| FrameCodec.NetworkOrderByte | Software/Time-Synchronization/time_sync/msg_frame.c:6-80 | byte k of a field of n counts 256^(n - 1 - k) |
| FrameCodec.HeaderRoundTrip | Software/Time-Synchronization/time_sync/msg_frame.c:91-130 | decoding an encoded header recovers it if and only if the four nibble fields are below 16 |
| FrameCodec.FollowUpRoundTrip | Software/Time-Synchronization/time_sync/eth_frame.c:276-319 | the same for a Follow_Up written by txFollowUp, whatever bytes follow it |
| TimestampQueue.BufferQueue.Push | Software/Time-Synchronization/dma_proxy/buffer_queue.c:21-38 | appends to the FIFO, or exits exactly when full or oversized |
| TimestampQueue.BufferQueue.Pop | Software/Time-Synchronization/dma_proxy/buffer_queue.c:40-51 | removes the oldest frame; the length reported is the next one's |
| TimestampQueue.TakeTimestamp | Software/Time-Synchronization/time_sync/eth_frame.c:187-197 | the skip loop ends at the first entry of the frame's type and id, and drops what is before it |
| TimestampQueue.EventsAreBelow8 | Software/Time-Synchronization/time_sync/eth_frame.c:151-275 | a timestamp is taken for exactly the frames whose message type the standard makes event messages |
| TimestampQueue.HeadHasEntry | Software/Time-Synchronization/time_sync/eth_frame.c:161-275 | in step, the next event frame has one |
| TimestampQueue.FindsItsOwn | Software/Time-Synchronization/time_sync/eth_frame.c:161-275 | and it is that frame's own, unless an entry of the same type and id is left over before it |
| TimestampQueue.StepKeepsInStep | Software/Time-Synchronization/time_sync/eth_frame.c:151-275 | arrivals, losses, pushes and receptions keep every port's frames a subsequence of its entries |
| GateControl.Insert | Software/Time-Synchronization/topo.cpp:196-199 | keeps cut points increasing and adds exactly the new one |
| GateControl.PushItem | Software/Time-Synchronization/topo.cpp:158-194 | the unrolling loop pushes the ends and starts of the flow's windows |
| GateControl.FillTables | Software/Time-Synchronization/topo.cpp:201-227 | slots are labelled and timed one after the other |
| GateControl.ApplyGcl | Software/Time-Synchronization/topo.cpp:145-227 | the compiler computes Compile |
| GateSchedule.SlotOpens | Software/Time-Synchronization/topo.cpp:201-225 | every slot opens either queue 0 alone or queues 1 and 8 |
| GateSchedule.CoverageIsSchedule | Software/Time-Synchronization/topo.cpp:158-194 | the unrolled windows cover an instant if and only if (t - start) mod period < end - start for some flow |
| GateSchedule.IntervalsFillPeriod | Software/Time-Synchronization/topo.cpp:201-227 | the intervals add up to the hyperperiod |
| GateSchedule.FitsExactly | Software/Time-Synchronization/topo.cpp:145-227 | the list fits its sixteen entries if and only if the schedule has at most seventeen distinct instants at which a window begins or ends, the two ends of the hyperperiod included |
| GateSchedule.FaithfulExactly | Software/Time-Synchronization/topo.cpp:145-227 | the list follows the schedule at every instant if and only if no window ends strictly inside another without one beginning there |
| GateSchedule.DisjointIsFaithful | Software/Time-Synchronization/topo.cpp:145-227 | windows disjoint or identical are always compiled exactly |
| GateSchedule.TriggeredSlotIsScheduled | Software/Time-Synchronization/topo.cpp:212-217 | a time-triggered slot never lies outside the schedule, overlaps or not |
| GateSchedule.OverlapLosesGate | Software/Time-Synchronization/topo.cpp:212-225 | two overlapping flows that are compiled wrongly |
| Calendar.TableIsRight | Software/Packetized-PLC-IO/lib/iec_std_lib.h:267-273 | the day table adds up the lengths of the months, given without it |
| Calendar.YearStep | Software/Packetized-PLC-IO/lib/iec_std_lib.h:333-341 | the closed-form leap-day count advances by the length of every year |
| Calendar.DateIsTheDay | Software/Packetized-PLC-IO/lib/iec_std_lib.h:284-317 | counted in days of the Gregorian calendar the date is always the day converted |
| Calendar.ConvertSeconds | Software/Packetized-PLC-IO/lib/iec_std_lib.h:284-317 | the loops end, the month index stays within 12, and the date describes the seconds, negative ones included |
| Calendar.MidnightRoundTrip | Software/Packetized-PLC-IO/lib/iec_std_lib.h:284-354 | the date gives back its midnight, and with the time of day the seconds, if and only if the midnight fits 32 bits |
| Calendar.MonthRightExactly | Software/Packetized-PLC-IO/lib/iec_std_lib.h:310-331 | month and day are the calendar's and no error is reported if and only if the day is not the first of a month after January; month lengths are given without the table |
| IecTimers.ComparisonIsExact | Software/Packetized-PLC-IO/lib/iec_std_lib.h:169-178 | comparing a sum with a clock reading decides correctly although sums are not always normalized |
| IecTimers.DifferenceNormal | Software/Packetized-PLC-IO/lib/iec_std_lib.h:368-372 | a difference of clock readings always is in normal form |
| IecTimers.SumNormalExactly | Software/Packetized-PLC-IO/lib/iec_std_lib.h:169-178 | a sum of clock readings is in normal form if and only if its nanoseconds do not make exactly one second |
| IecTimers.TON.Body | Software/Packetized-PLC-IO/lib/iec_std_FB.h:1461-1503 | after every scan, over all scans so far: Q holds if and only if IN has been on since an earlier scan and PT has been over since; ET likewise |
| IecTimers.TOF.Body | Software/Packetized-PLC-IO/lib/iec_std_FB.h:1523-1563 | after every scan: Q holds if and only if IN does, or it went off and PT has not been over since |
| IecTimers.TP.Body | Software/Packetized-PLC-IO/lib/iec_std_FB.h:1401-1441 | after every scan: Q holds if and only if a pulse is in progress |
| IecTimers.TonIsOnDelay | Software/Packetized-PLC-IO/lib/iec_std_FB.h:1461-1503 | the scan function has that meaning for every scan sequence, whatever PT and the clock do from scan to scan |
| IecTimers.TofIsOffDelay | Software/Packetized-PLC-IO/lib/iec_std_FB.h:1523-1563 | likewise for the off-delay |
| IecTimers.TpIsPulse | Software/Packetized-PLC-IO/lib/iec_std_FB.h:1401-1441 | likewise for the pulse |
| IecTimers.PulseLasts | Software/Packetized-PLC-IO/lib/iec_std_FB.h:1418-1430 | a pulse lasts until the first later scan at which PT is over, whatever IN does |
| ModbusRegisters.WriteLeavesOthers | Software/Packetized-PLC-IO/modbus.cpp:546-650 | writing one address changes no other, also within a wide variable |
| ModbusRegisters.ReadAfterWrite | Software/Packetized-PLC-IO/modbus.cpp:286-410 | the word written is read back, high byte first, if and only if a variable is mapped there, but for words that look the same |
| ModbusRegisters.BytesSpellWord | Software/Packetized-PLC-IO/modbus.cpp:286-410 | the two bytes of an answer spell the word at the address, high byte first, also within wide variables |
| ModbusRegisters.RequestReadBack | Software/Packetized-PLC-IO/modbus.cpp:286-650 | the two data bytes of a write request come back in the answer of a read if a variable is mapped there |
| ModbusRegisters.WriteBothWords | Software/Packetized-PLC-IO/modbus.cpp:579-600 | two words store the big-endian 32-bit value |
| ModbusRegisters.WriteAllFourWords | Software/Packetized-PLC-IO/modbus.cpp:602-633 | four words store the big-endian 64-bit value |
| ModbusRegisters.ModbusServer.ReadHoldingRegisters | Software/Packetized-PLC-IO/modbus.cpp:286-422 | the answer's header, its bytes as the words stored, the error codes, nothing stored changes, and exactly which requests look past the output table |
| ModbusRegisters.ModbusServer.WriteRegister | Software/Packetized-PLC-IO/modbus.cpp:546-650 | the word is stored as WriteWord says, or the error answered; past the table exactly for address 1024 |
| Words.SetBitEffect | Software/Packetized-PLC-IO/modbus.cpp:64-67 | bitWrite sets one bit and no other |
| ModbusCoils.BlockRoundTrip | Software/Packetized-PLC-IO/modbus.cpp:152-214 | a block written reads back byte for byte, padding included, if and only if only zeros went to unmapped coils |
| ModbusCoils.OtherBlocksReadSame | Software/Packetized-PLC-IO/modbus.cpp:152-214 | reading a block that has no coil in common with the rounded-up range written gives the same bytes as before |
| ModbusCoils.CoilServer.ReadCoils | Software/Packetized-PLC-IO/modbus.cpp:152-214 | the answer shows the coils, or the error |
| ModbusCoils.CoilServer.WriteMultipleCoils | Software/Packetized-PLC-IO/modbus.cpp:655-709 | the block is stored, in range even when the answer is an error |

## Left out

- Floating point: `uscaledns_div` and `uscaledns_double` are not modelled. A rate quotient enters as unusable, or as a ratio or period, and equal-rate clocks give 1.0.
- PdelayProtocol.PeerDelaySafety: within one enabled epoch of at most 2^16 requests, with empty links at its start and links that neither duplicate nor reorder; beyond that ids repeat.
- SyncChain.GrandmasterTimeIsCarried: for clocks of equal rate whose offsets do not change, even sub-nanoseconds (the timestamping units give none, the clock multiples of 256), a constant delay per link that is known exactly, and distinct ids of the Syncs of a link.
- ModbusRegisters.ModbusServer.ReadHoldingRegisters: where the code indexes one past the output table, nothing but that is promised; likewise for writing there.
- Modbus: two addresses that point to the same PLC variable, `WriteMultipleRegisters` and the input tables.
- GateControl.ApplyGcl: sorting is a function, not the library's in-place sort; a period of zero would not terminate; the writes to the hardware tables are left out.
- Calendar.ConvertSeconds: the year is unbounded, so years beyond 32 bits do not wrap.
- IecTimers.TonIsOnDelay: clock readings are normalized and not negative, and seconds do not overflow; likewise for the other blocks.
- FrameCodec.HeaderRoundTrip: frames are values, not structures filled through pointers; Announce and the peer-delay messages are not coded, nor the missing swap of the follow-up's requesting port.
- TimestampQueue.TakeTimestamp: the timestamping unit's registers are a sequence of entries; a frame from an unknown port is excluded.
- The relay machines SiteSyncSync and PortSyncSync are field copies without their states; best-master selection is left out.
- Memory management: messages are values, and freeing them is not modelled.
- Registers, DMA, sockets, configuration files, logging and threads.
