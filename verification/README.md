# rusctp: a verified model of its SCTP core

rusctp is an SCTP implementation (RFC 9260) without I/O of its own. This project models its reliable transport, its
wire format and its handshake in Dafny, and proves what they are for. `dafny verify dfyconfig.toml` checks everything.

* **Data transfer.** `AssociationTx` and `AssociationRx` are classes (`Transmitter`, `Receiver`, with `Congestion` and
  `RoundTrip` beside them) whose methods are proved against functions on values (`TxModel`, `RxModel`). What holds in
  every run is proved about those functions: `TxInvariants`, `GapAcks`, `Retransmission`, `LossRecovery`,
  `FastRetransmit`, `WindowGrowth`, `TxLimits`, `Fragmentation`, `PartialPackets`, `TimerMarkers`, `Signals`,
  `ShutdownSafety` for a sender on its own, `RxConservation`, `RxTracking`, `SackEncoding` for a receiver.
* **Both ends and the channel.** `Association` is a step system of a sender, a receiver, and everything that was ever
  sent: each chunk and each SACK may arrive at any time, any number of times, in any order, or never.
  `AssociationSafety`, `MessageLabels`, `PanicFreedom`, `GapTruth`, `AckProgress`, `CatchingUp`, `ClosedWindow`,
  `LostSack`, `ShutdownLoss` and `RxAssertion` hold the results over whole runs; `FirstByte` has the concrete runs that
  show what can go wrong. `WireChannel` replaces the channel by one that carries bytes. `Nodes` puts a receiver and a
  transmitter together into one end, and `Duplex` two such ends into an association with traffic in both directions;
  each direction is proved to be a run of the pair.
* **Wire format.** `Wire` says what the bytes are, `WireLayout` at which place each field stands, `WireLoops`
  has the loops that read and write them, `WireRoundTrip` and `CookiePath` prove that everything comes back.
* **Handshake.** `Endpoint` is the table logic of `Sctp` as functions, `EndpointSafety`, `PacketDispatch` and
  `Unimplemented` what holds for all packets, `SctpEndpoint` the class, and `Handshake*` the four-way handshake of two
  endpoints that exchange bytes over a network that loses, repeats and reorders them. `EndToEnd` joins it to the data
  transfer.

Conventions. TSNs are 32-bit numbers; chunk `i` of a run carries TSN `At(init, i)`, so `i` is its unbounded TSN. An
action of the pair can only happen while the 32-bit comparison of the TSNs involved is meaningful, that is, while they
are at most 2^25 - 1 apart (`Association.CanHappen`); `SerialNumber.TsnWindow` proves that this is the exact limit.
Times are nanoseconds. Random tags and TSNs, the clock and the hash function are parameters. A call that would panic has
the outcome `Panicked`. Machine arithmetic wraps as in a release build. `Compatible` collects what the two ends of an
association must have agreed on; the handshake is proved to establish it.

Where the code differs from what one would expect of it, the model follows the code, and the exact condition is proved:

* an empty message has no wire form, so the receiver takes nothing from it on (`CatchesUpExactly`, `EmptyChunkStalls`),
  while polls still never panic (`NoPollPanics`);
* what is left of a message is neither sent nor cut while its length is above pmtu - 16 and up to pmtu: a message is
  safe from that in all runs exactly if its length is at most pmtu - 16 (`BlocksExactly`); with full packets alone it
  gets there exactly if its last full piece leaves at most sixteen bytes over (`MessageLeavesExactly`);
* the receiver reports no new window when the application reads, so a window that closed opens again only by a SACK that
  was already written (`ReopensExactly`, `SecondNeverLeaves`);
* gap blocks are written inclusively and read half-open (`HalfOpenReading`);
* the sender's last acknowledged TSN starts at zero (`ProgressExactlyIfRecognized`, `FirstSackIgnored`);
* repetitions are not acknowledged, so a lost last SACK leaves the sender in loss recovery until an older one that
  covers more arrives (`LostSackIsNeverRepeated`, `SackGetsLost`);
* a SACK of more than 296 blocks is too long for a path MTU of 1200, and a signal that is too long keeps every other
  signal from leaving (`LongSignalBlocks`, `LongSackExactly`);
* the variance of the round-trip time takes the distance with its sign, so a round trip that is longer than the average
  lowers the timeout (`VarianceIsStandardExactly`);
* the receiver's runtime assertion forgets unordered messages (`AssertionPassesExactly`);
* a SHUTDOWN that arrives takes away the messages that still wait (`ShutdownLosesWaiting`, `WaitingByteIsLost`);
* `initiate_shutdown` reopens a closed association (`ClosedStaysClosed`);
* a COOKIE ECHO of 37 to 40 bytes makes an endpoint panic (`ReceivePanicsExactly`), and so does a heartbeat answer too
  short to be read (`ShortBeatExactly`);
* a chunk of an unknown type that asks for a report is answered with OP ERROR, which cannot be serialized outside the
  `fuzz` feature, and a misplaced chunk is passed to a receiver that has no code for it (`UnimplementedExactly`).

## Model

| member | source | states |
|---|---|---|
| `SerialNumber.WindowIsExact` | src/packet.rs:268-287 | the wrapping comparison orders all steps of length d from everywhere on the circle if and only if d <= max / 128 |
| `SerialNumber.TsnWindow` | src/packet.rs:321-340 | for `Tsn` the exact bound is 2^25 - 1 |
| `SerialNumber.SequenceWindow` | src/packet.rs:268-287 | for `Sequence` the exact bound is 511 |
| `SerialNumber.CompareAt` | src/packet.rs:321-340 | inside that window the 32-bit comparison agrees with the order of the unbounded TSNs |
| `SerialNumber.AtStep` | src/packet.rs:304-311 | `increase` and `decrease` are one step of the unbounded TSN, and undo each other |
| `AssociationSafety.PrefixDelivery` | src/assoc/rx.rs:268-384 | over every run with loss, repetition and reordering, the ordered messages handed over are a prefix of the ordered messages accepted by `try_send_data`, with stream, ppid and payload, each once; the unordered ones likewise |
| `AssociationSafety.NothingFreedEarly` | src/assoc/tx/ack.rs:79-89 | in every run each TSN ever assigned is still in the resend queue with its original contents or was taken in order by the receiver; TSNs are consecutive and end before the counter |
| `AssociationSafety.EveryPollIsOriginal` | src/assoc/tx.rs:492-612 | whatever a poll returns in any run, new or retransmitted, is the original chunk of its TSN |
| `MessageLabels.LabelsAreExact` | src/assoc/tx.rs:319-355 | in every run each chunk on the wire carries stream, ppid and flags of the message it belongs to, begins one exactly where the last one ended, and its sequence number is the number of ordered messages accepted on its stream before it, modulo 2^16 |
| `MessageLabels.SequenceNumbersAreConsecutive` | src/assoc/tx.rs:351-353 | in every run and on every stream the ordered messages on the wire have the sequence numbers 0, 1, 2 and so on; unordered ones take none |
| `AssociationSafety.FlowControl` | src/assoc/tx.rs:557-602 | in every run buffered bytes plus bytes sent but not accepted stay within the receive buffer, whatever stale or repeated SACKs arrive, so every chunk under way passes both buffer checks |
| `AssociationSafety.ReceiverIsASet` | src/assoc/rx.rs:316-365 | in every run the receiver's accepted chunks are exactly the delivered ones, nothing is given up again, and the counter stands before the first missing chunk |
| `AssociationSafety.ShutdownMeansAllDelivered` | src/assoc/tx.rs:390-409 | when SHUTDOWN or SHUTDOWN ACK leaves, everything ever accepted from the application has been handed over or waits for the receiving application (see the next row) |
| `ShutdownLoss.ShutdownLosesWaiting` | src/assoc/rx.rs:202-211 | in every run: once that signal arrives, no continuation hands over anything more, so everything accepted is handed over if and only if nothing waited at that moment |
| `ShutdownLoss.WaitingByteIsLost` | src/assoc/rx.rs:367-377 | for every first TSN that compares as larger than zero and every window: one byte is sent, received and acknowledged, the sender shuts down, the SHUTDOWN arrives before the application polls; no continuation hands the byte over |
| `AssociationSafety.InvStep` | src/assoc/tx/ack.rs:57-102 | the pair invariant (conservation, numbering, message contents, flow control, truthful windows) is kept by every action |
| `AssociationSteps.MoveCarries` | src/assoc/tx.rs:560-597 | sending whole or in fragments changes no message, and accepting a message appends exactly that message |
| `AssociationSteps.ForgetsCovered` | src/assoc/tx/ack.rs:79-89 | a SACK that covers k chunks makes the pop loop remove exactly the chunks before k |
| `AssociationSteps.WindowHasRoom` | src/assoc/tx/ack.rs:93-93 | however old a SACK is, the window computed from it leaves room for everything still under way |
| `Nodes.DeliverChunk` | src/assoc/rx.rs:111-124 | the two objects of an end: a chunk is handled by the receiver and its notifications by the transmitter, in order, with the exact panic condition |
| `Nodes.SackIsPassedOn` | src/assoc/rx.rs:195-197 | a SACK given to the receiver reaches the transmitter as `handle_sack`, and nothing else changes |
| `Nodes.DataIsAcknowledged` | src/assoc/tx.rs:256-265 | a chunk that the receiver acknowledges is answered with its SACK as the next signal |
| `Nodes.ShutdownComesWithSack` | src/assoc/tx.rs:257-263 | a sender whose SHUTDOWN is not answered yet repeats it before each SACK, with the new cumulative TSN |
| `Nodes.HeartbeatIsAnswered` | src/assoc/rx.rs:217-220 | a heartbeat comes back unchanged with the next signal |
| `Nodes.AnswerWidensPath` | src/assoc/tx/timeouts.rs:79-87 | the answer to a probe raises the path MTU to its size and the chunk size with it, and clears the count of unanswered probes |
| `Nodes.ProbeIsSent` | src/assoc/tx/timeouts.rs:64-77 | an expiry of the heartbeat timer sends the probe that is due, or counts one more unanswered, and sets the timer again |
| `Nodes.AbortCloses` | src/assoc/rx.rs:198-201 | an ABORT closes both halves: nothing is sent, accepted or handed over any more |
| `Nodes.ShutdownExchange` | src/assoc/tx.rs:276-298 | two idle ends: SHUTDOWN, SHUTDOWN ACK and SHUTDOWN COMPLETE leave in turn, and both ends are closed in both directions |
| `Nodes.CrossingShutdowns` | src/assoc/tx.rs:276-297 | both ends shut down at once: both SHUTDOWNs are answered with SHUTDOWN ACK, and both ends are closed |
| `Nodes.SignalIsRepeated` | src/assoc/tx/timeouts.rs:89-106 | a shutdown signal that was lost leaves again after each expiry of its timer, which is set again |
| `Duplex.EachDirectionIsARun` | src/assoc/rx.rs:186-230 | every run of two complete ends, with data, SACKs and signals both ways over lossy wires, is in each direction a run of the pair, so every theorem about the pair holds for it; each SACK that a sender handles was written by the other receiver |
| `Duplex.BothDirectionsDeliver` | src/assoc/rx.rs:268-384 | in every such run both applications get prefixes of what the other one sent, and nothing arrives that the receiver has no code for |
| `Duplex.SackStep` | src/assoc/tx.rs:267-267 | a SACK that arrives at an end and is passed on is exactly the SACK step of the pair |
| `Duplex.ArrivalIsAcknowledged` | src/assoc/rx.rs:232-266 | a chunk that arrives for the first time is taken as by the pair, and the SACK for it is on the wire after the next signal |
| `PanicFreedom.NoPollPanics` | src/assoc/tx.rs:525-528 | in every run of a sender and a receiver, with empty messages or without, a recovery phase implies a non-empty resend queue and no poll panics |
| `PanicFreedom.SackRecovers` | src/assoc/tx/congestion.rs:40-45 | a SACK that only acknowledges chunks with payload ends a recovery phase when it empties the queue |
| `CatchingUp.CatchesUpExactly` | src/assoc/rx.rs:336-365 | in every run: some continuation takes everything that was sent if and only if no chunk on its way is empty |
| `CatchingUp.EmptyChunkStalls` | src/packet/data.rs:70-89 | an empty chunk keeps every continuation from taking it or anything behind it |
| `CatchingUp.CanDeliverEverything` | src/assoc/rx.rs:367-384 | in every run without empty chunks under way and before a shutdown, some continuation hands over exactly the messages completed by the chunks sent so far, which are all accepted messages if nothing waits to be sent (the next row says when what waits can be sent) |
| `ClosedWindow.ReopensExactly` | src/assoc/rx.rs:336-377 | in every run in which everything sent was acknowledged and a message waits, some continuation sends something new if and only if the window that the sender knows, or the one in a SACK for everything sent that was already written, is enough: at least the front message, or at least one byte if the front has to be cut (the path MTU may grow by a probe, up to 2^32 - 1) |
| `ClosedWindow.SecondNeverLeaves` | src/assoc/rx.rs:232-234 | a receive buffer of one byte and two messages of one byte: the first is sent, acknowledged and read, both sides are open and nothing is buffered, and no continuation sends the second |
| `LostSack.AnsweredExactlyOnce` | src/assoc/rx.rs:336-365 | in every run an arriving chunk is answered with a SACK if and only if it was not delivered before; a repetition changes nothing |
| `LostSack.LostSackIsNeverRepeated` | src/assoc/rx.rs:341-363 | from every state of every run in which everything has arrived and the sender is in loss recovery: a continuation leaves that state if and only if it delivers a SACK already written that covers more than the sender forgot and is recognized; otherwise nothing new is sent and no SACK is ever written |
| `LostSack.SackGetsLost` | src/assoc/tx/timeouts.rs:108-123 | one byte is sent and received and the RTO timer runs out before its SACK arrives: the sender is in that state |
| `GapTruth.GapAcksAreTrue` | src/assoc/tx/ack.rs:28-47 | in every run in which arrivals are less than 65535 ahead and SACKs arrive near the chunks in flight, every chunk that the sender marked as received behind a gap was accepted by the receiver, and every SACK under way says only true things |
| `GapTruth.NewSackIsTruthful` | src/assoc/rx.rs:232-266 | what the sender will read from a new SACK is true of the receiver that wrote it |
| `GapTruth.WalkMarksCovered` | src/assoc/tx/ack.rs:28-47 | for arbitrary blocks the walk only marks entries inside some block |
| `AckProgress.ProgressExactlyIfRecognized` | src/assoc/tx/ack.rs:60-89 | in every run a SACK that covers more makes the sender forget exactly the covered chunks if and only if it is recognized: always after the first one, before that if its TSN is in 1..WRAP_HI |
| `AckProgress.FirstSackIgnored` | src/assoc/tx.rs:212-212 | an association whose first TSN is 2^32 - 10: the SACK for its first chunk changes nothing |
| `RxTracking.ArrivalFollows` | src/assoc/rx.rs:336-365 | after any chunk arrives, for the first time or again, the receiver still holds exactly what the history says, and no byte is lost between missing and buffered |
| `RxTracking.ArrivalAccepts` | src/assoc/rx.rs:336-365 | an arrival adds exactly the arriving chunk to the accepted set, if there is room |
| `RxTracking.CounterIsMaximal` | src/assoc/rx.rs:316-326 | every chunk before the counter was accepted and the next one was not |
| `RxTracking.DrainFollows` | src/assoc/rx.rs:316-326 | draining never fails its buffer check: each chunk leaves the reorder buffer only by being accepted in order |
| `RxTracking.DrainKeepsAccepted` | src/assoc/rx.rs:316-326 | draining gives up no chunk: the accepted set is the same before and after |
| `RxTracking.PollFollows` | src/assoc/rx.rs:367-384 | polling hands over the next waiting message and frees exactly its bytes |
| `RxTracking.MissingIsUnaccepted` | src/assoc/rx.rs:345-348 | sent bytes minus taken and buffered bytes are the bytes of the chunks not accepted, counted one by one |
| `RxModel.DrainIsFinished` | src/assoc/rx.rs:316-326 | after draining the next TSN is not in the reorder buffer |
| `RxConservation.ReceiverConservesBytes` | src/assoc/rx.rs:126-150 | over every sequence of operations `current_in_buffer` is the sum over all four stores and within the limit |
| `RxConservation.AssertionHoldsExactlyWithoutUnordered` | src/assoc/rx.rs:126-150 | after any run, the asserted sum is the counter if and only if no unordered payload waits |
| `RxConservation.SackTellsRoom` | src/assoc/rx.rs:232-234 | in every run the window of the next SACK is the buffer limit minus all bytes held for the application |
| `RxConservation.UnorderedComeFirst` | src/assoc/rx.rs:380-384 | n polls hand over the first n waiting messages, unordered before ordered, each in the order of completion |
| `RxConservation.UnknownStreamStalls` | src/assoc/rx.rs:328-333 | while the next TSN only arrives on a stream that does not exist, the receiver never advances |
| `RxAssertion.AssertionPassesExactly` | src/assoc/rx.rs:111-150 | judged before the call: the assertion passes after a notification if and only if no unordered payload waits and neither the arriving chunk nor one it sets free completes an unordered message with payload |
| `RxAssertion.AssertionNeverFails` | src/assoc/rx.rs:126-150 | in every run in which the sender accepted no unordered message with payload the assertion holds |
| `RxConservation.AssertionFailsOnUnordered` | src/assoc/rx.rs:146-149 | one unordered message of one byte makes the assertion fail |
| `SackEncoding.BlocksAreExact` | src/assoc/rx.rs:236-257 | read inclusively, the blocks give back exactly the reorder-buffer keys; they are sorted, disjoint and maximal |
| `SackEncoding.ExactOnlyWithin16Bits` | src/assoc/rx.rs:244-255 | this holds if and only if all distances fit 16 bits |
| `SackEncoding.HalfOpenReading` | src/assoc/tx/ack.rs:36-40 | read half-open, the blocks of a SACK cover a chunk if and only if it and its successor are both buffered |
| `GapAcks.WalkIsPointwise` | src/assoc/tx/ack.rs:28-47 | for ascending disjoint blocks the merge walk gives each entry its own verdict: marked as received inside a block, for fast retransmit below some block's start, unchanged otherwise |
| `GapAcks.GapAckedMeansHeld` | src/assoc/tx/ack.rs:17-47 | from a SACK that the receiver builds, an entry is marked as received if and only if the receiver holds it and its successor |
| `GapAcks.WalkCreditsOnce` | src/assoc/tx/ack.rs:36-41 | the walk credits exactly the bytes of the entries it newly marks, for arbitrary blocks |
| `GapAcks.CreditedAtMostOnce` | src/assoc/tx/ack.rs:50-54 | over every run, total credit plus bytes still without credit never exceed the bytes sent |
| `TxInvariants.EveryOperationIsAMove` | src/assoc/tx.rs:249-612 | every operation moves data in one of five ways: nothing, enqueue, send whole, send a fragment, forget an acknowledged prefix |
| `TxInvariants.TransmitterConserves` | src/assoc/tx.rs:446-462 | over every run `current_out_buffered` and `current_in_flight` are the sums over the queues and within the limit, and the resend queue has consecutive TSNs that end before the counter |
| `TxInvariants.TimerArmedWhenNeeded` | src/assoc/tx/ack.rs:95-101 | over every run without empty messages the RTO timer is set if and only if the resend queue is non-empty, and no poll panics whatever SACKs arrive |
| `Retransmission.EveryRunIsTimely` | src/assoc/tx/timeouts.rs:108-141 | in every run with a monotone clock and no empty message the RTO timer is never due before the front entry was queued, nothing is queued in the future, and the RTO stays in its range |
| `Retransmission.RetransmissionAfterEightTimeouts` | src/assoc/tx/timeouts.rs:108-123 | from any reachable state with something in flight and for any continuation without a SACK (with whatever polls, sends, notifications and other timers): once the RTO timer has expired eight times, some poll returned the front of the resend queue, or the front is marked and the next poll of an empty packet returns it |
| `Retransmission.TimerIsDueSoon` | src/assoc/tx/timeouts.rs:134-141 | in every scheduled run with something in flight the RTO timer is set and due within three seconds |
| `LossRecovery.RepeatedOncePerExpiry` | src/assoc/tx.rs:509-530 | while no SACK arrives, loss recovery returns nothing but the front, at most once per expiry of the RTO timer |
| `LossRecovery.NotRepeatedEarly` | src/assoc/tx/timeouts.rs:116-121 | in every scheduled run, what loss recovery returns was sent for the first time at least 1 ms ago |
| `LossRecovery.SackRestartsTimer` | src/assoc/tx/ack.rs:95-101 | a SACK that acknowledges a chunk sets the RTO timer for one full timeout, or stops it if nothing is left |
| `LossRecovery.RoundTripIsMeasured` | src/assoc/srtt.rs:29-43 | the measured round trip of a chunk is the time from its transmission to its SACK |
| `FastRetransmit.RepeatsInOrder` | src/assoc/tx.rs:531-544 | in fast recovery, while no SACK arrives, what the polls returned and what is still pending are what was pending at the start, in TSN order, with one chunk per poll |
| `FastRetransmit.RepeatsAll` | src/assoc/tx.rs:531-544 | after n full polls the first n pending chunks were returned, and the next poll returns nothing if and only if that were all |
| `FastRetransmit.RepeatedAtMostOnce` | src/assoc/tx.rs:534-540 | over every run, whatever SACKs arrive, no TSN is returned by fast retransmission twice |
| `WindowGrowth.SlowStartGrows` | src/assoc/tx/congestion.rs:56-60 | over every run in slow start `cwnd` grows by exactly the sum of max(2 pmcds, acked) over the SACKs that find it full, so by at least 2 n pmcds after n of them, and by nothing else |
| `WindowGrowth.AvoidanceGrows` | src/assoc/tx/congestion.rs:46-55 | in congestion avoidance with a full window, `cwnd` grows by min(pmcds, 1000) per window of acknowledged bytes: every byte is counted or paid for a step |
| `WindowGrowth.CreditIsCapped` | src/assoc/tx/congestion.rs:48-50 | without a full window nothing grows and at most one window of acknowledged bytes is saved up |
| `WindowGrowth.HalvedAfterLoss` | src/assoc/tx/congestion.rs:69-84 | after either kind of loss, whatever is acknowledged, congestion avoidance starts again with exactly half of the window before the loss |
| `WindowGrowth.RecoveryEndsExactly` | src/assoc/tx/congestion.rs:40-45 | over any list of SACKs recovery ends if and only if one acknowledges a byte, and the window does not move before |
| `WindowGrowth.SecondDuplicateStartsFastRecovery` | src/assoc/tx/ack.rs:64-71 | after a new SACK, over every run in which nothing else is acknowledged and no timer runs out, fast recovery starts if and only if the cumulative TSN was repeated twice |
| `WindowGrowth.StartsWith4404` | src/assoc/tx/congestion.rs:22-31 | the start window is two to four chunks, 4404 bytes in between, as section 7.2.1 of RFC 9260 asks; a new sender starts with 4404 bytes in slow start |
| `TxLimits.AcceptedExactly` | src/assoc/tx.rs:319-339 | in every run a message is accepted if and only if the association is open, the stream exists and it fits beside everything not acknowledged; the error names the first that fails |
| `TxLimits.PmtuIsLargestProbe` | src/assoc/tx/timeouts.rs:79-87 | in every run the path MTU is the largest answered probe, and at least 1200 |
| `TimerMarkers.EachTimeoutHasOneTimer` | src/assoc/tx/timeouts.rs:46-62 | over every run of fewer than 2^62 operations no two timers share a marker, so a timeout is handled as exactly one timer |
| `TimerMarkers.StaleStaysStale` | src/assoc/tx/timeouts.rs:125-150 | a timeout of a timer that was set again or stopped is never handled later on |
| `Signals.RequestsLeaveInOrder` | src/assoc/tx.rs:256-266 | in every run the SACKs and heartbeat answers of the own receiver leave in order, each once |
| `Signals.LongSignalBlocks` | src/assoc/tx.rs:377-389 | while the path MTU stays, a signal that is longer keeps every signal from leaving in every run |
| `Signals.LeavesExactly` | src/assoc/tx.rs:377-389 | the first signal leaves with a full packet if and only if it fits the path or is a heartbeat |
| `Signals.LongSackExactly` | src/packet/sack.rs:43-45 | at path MTU 1200 a SACK blocks the signals if and only if it has more than 296 blocks and duplicates |
| `Signals.ShutdownTellsLastSack` | src/assoc/tx.rs:391-396 | in every run a SHUTDOWN carries the cumulative TSN of the last SACK that the own receiver asked for |
| `TxLimits.WindowIsBounded` | src/assoc/tx/congestion.rs:33-67 | over every run, whatever is acknowledged, `cwnd` stays below a bound given by the send buffer and the largest chunk size |
| `TxLimits.NewDataRespectsWindows` | src/assoc/tx.rs:552-602 | new data leaves at most `cwnd` + pmtu - 16 bytes in flight and uses no more than the peer's window |
| `Fragmentation.LeavesExactly` | src/assoc/tx.rs:560-597 | cutting a message of length L into full pieces of room bytes ends well if and only if L <= room or (L - 1) % room >= 16 |
| `Fragmentation.MessageLeavesExactly` | src/assoc/tx.rs:548-609 | over every run with one path MTU and full fragments: a message for which that holds is gone after as many open polls as it has pieces; any other message never leaves completely, and nothing behind it leaves either |
| `Fragmentation.BlockedForGood` | src/assoc/tx.rs:570-597 | once the front has one of the sixteen lengths above pmtu - 16 and up to pmtu, no run with that path MTU sends anything new, whatever the fragment sizes |
| `PartialPackets.BlocksExactly` | src/assoc/tx.rs:548-602 | over all runs with one path MTU, whatever room the packets have, from every sound state whose chunks can be acknowledged: some run leaves the front message blocked for good if and only if it is longer than pmtu - 16, and some run sends it completely if and only if it does not have one of the sixteen lengths; so every longer message is blocked in one run and leaves in another |
| `PartialPackets.ShortStaysShort` | src/assoc/tx.rs:570-597 | a message of at most pmtu - 16 bytes is never cut and never blocked in any run with one path MTU |
| `PartialPackets.HalfFilledPacketBlocks` | src/assoc/tx.rs:488-506 | 1232 bytes at path MTU 1200 leave with full packets, but a first poll with 56 bytes left in the packet leaves 1192 bytes that no continuation sends |
| `Fragmentation.MessageGetsStuck` | src/assoc/tx.rs:560-597 | 2374 bytes at path MTU 1200: the first poll sends 1184 bytes, the second one nothing |
| `Fragmentation.MessageNeverLeaves` | src/assoc/tx.rs:560-597 | no run with full fragments ever sends the rest of those 2374 bytes |
| `TxLimits.RecoveryEndsExactlyWithBytes` | src/assoc/tx.rs:509-530 | a SACK that empties the queue in loss recovery is followed by a panic if and only if it acknowledged no byte |
| `TxLimits.EmptyMessageIsSent` | src/assoc/tx.rs:311-355 | a fresh transmitter accepts an empty message and puts it in flight |
| `TxLimits.EmptyMessagePanics` | src/assoc/tx.rs:525-528 | after its timeout, any SACK that covers that chunk makes the next poll panic (no receiver of this implementation sends one) |
| `Congestion.BytesAckedBounded` | src/assoc/tx/congestion.rs:33-67 | one acknowledgement keeps the window bound |
| `Congestion.RecoveryBounded` | src/assoc/tx/congestion.rs:69-84 | entering fast or loss recovery keeps the window bound |
| `Congestion.PerDestinationInfo.RecordAcked` | src/assoc/tx/congestion.rs:33-67 | when and by how much the window grows: in slow start by max(2 pmcds, acked) up to the threshold if and only if the bytes in flight fill it, in congestion avoidance by min(pmcds, 1000) if and only if also a full window was acknowledged; every bound it satisfied is kept, and a recovery phase ends exactly with the first acknowledged byte |
| `Congestion.PerDestinationInfo.StartFastRecovery` | src/assoc/tx/congestion.rs:69-78 | fast recovery is entered exactly from congestion avoidance, with the threshold at half the window and the window at that or the start window; every bound is kept |
| `Congestion.PerDestinationInfo.StartLossRecovery` | src/assoc/tx/congestion.rs:80-84 | loss recovery is entered from every phase with the window of a new path and the threshold at half the window before; every bound is kept |
| `RoundTrip.TimeoutStaysInRange` | src/assoc/srtt.rs:45-70 | once measured the RTO stays between 1 ms and 200 ms under every operation |
| `RoundTrip.MeasurementWeighs` | src/assoc/srtt.rs:45-58 | up to rounding a measurement moves the average by an eighth of its distance and the variance by a quarter, and the timeout is their sum, clamped |
| `RoundTrip.AverageStaysBetween` | src/assoc/srtt.rs:45-58 | over any list of measurements the average stays between the shortest and the longest, up to rounding |
| `RoundTrip.VarianceIsStandardExactly` | src/assoc/srtt.rs:51-52 | the variance is the one of RFC 2988 if and only if the round trip is not longer than the average (up to 3 ns), and smaller otherwise |
| `RoundTrip.Srtt.RecordMeasured` | src/assoc/srtt.rs:45-58 | whatever is measured, the RTO is between 1 ms and 200 ms afterwards |
| `RoundTrip.Srtt.TsnAcked` | src/assoc/srtt.rs:35-43 | a measurement ends exactly with an acknowledgement of its TSN, and then the RTO is in range; the range is an invariant of the class |
| `RoundTrip.Srtt.RtoExpired` | src/assoc/srtt.rs:68-70 | the timeout never shrinks by running out, and a measured one doubles or reaches 200 ms; the range is kept |
| `ShutdownSafety.ShutdownOnlyAfterAllData` | src/assoc/tx.rs:256-298 | in every run, whenever SHUTDOWN or SHUTDOWN ACK leaves (first or repeated), both data queues are empty and stay empty in every continuation |
| `ShutdownSafety.ClosedStaysClosed` | src/assoc/tx.rs:307-309 | a closed state is kept by an operation if and only if it is not `initiate_shutdown` |
| `Receiver.AssociationRx.constructor` | src/assoc/rx.rs:82-105 | a new receiver holds nothing and expects the initial TSN |
| `Receiver.AssociationRx.CollectBlocks` | src/assoc/rx.rs:236-257 | the block-building loop computes the run-length encoding |
| `Receiver.AssociationRx.QueueAck` | src/assoc/rx.rs:232-266 | the SACK, the advertised window, and no underflow |
| `Receiver.AssociationRx.HandleInOrderPacket` | src/assoc/rx.rs:268-334 | the loop with nested recursion refines a single flat drain; bytes stay conserved |
| `Receiver.AssociationRx.HandleDataChunk` | src/assoc/rx.rs:336-365 | the new state after a DATA chunk, in all three cases of the comparison |
| `Receiver.AssociationRx.Notification` | src/assoc/rx.rs:111-230 | the new state, SACKs and heartbeat answers passed on to the transmitter, and a panic if and only if the kind of chunk is not implemented or the runtime assertion fails, judged on the state before the call |
| `Receiver.AssociationRx.PollData` | src/assoc/rx.rs:367-384 | unordered messages first, then ordered ones; an error once shut down |
| `Receiver.AssociationRx.TakeNotifications` | src/assoc/rx.rs:122-124 | hands over all queued notifications |
| `Transmitter.AssociationTx.constructor` | src/assoc/tx.rs:192-243 | the initial state, which satisfies the invariant |
| `Transmitter.AssociationTx.TrySendData` | src/assoc/tx.rs:311-355 | the three errors in order, or one more message in the queue with the sequence number of its stream, which only an ordered message uses up; the invariant is kept |
| `Transmitter.AssociationTx.PollDataToSend` | src/assoc/tx.rs:480-612 | retransmission, fast retransmission, whole or fragmented new data, or nothing |
| `Transmitter.AssociationTx.PollFastData` | src/assoc/tx.rs:531-544 | the loop finds the first entry that fits and was not sent again yet, returns it and marks it as sent again |
| `Transmitter.AssociationTx.MarkGaps` | src/assoc/tx/ack.rs:24-47 | the two-iterator loop computes the walk and its credit |
| `Transmitter.AssociationTx.PopAcked` | src/assoc/tx/ack.rs:79-89 | the pop loop removes exactly the maximal acknowledged prefix, entry by entry, and no counter runs below zero |
| `Transmitter.AssociationTx.HandleSack` | src/assoc/tx/ack.rs:57-102 | old, duplicate and new SACKs; the invariant is kept |
| `Transmitter.AssociationTx.HandleRtoTimeout` | src/assoc/tx/timeouts.rs:108-123 | recovery, back-off, marking of late entries, new timer |
| `Transmitter.AssociationTx.HandleTimeout` | src/assoc/tx/timeouts.rs:46-62 | exactly the timers whose marker matches are handled |
| `Transmitter.AssociationTx.FindNextTimer` | src/assoc/tx.rs:429-444 | some timer of the list that no other one precedes, and none only if there is none |
| `Transmitter.AssociationTx.GetNextTimeout` | src/assoc/tx.rs:421-427 | no timer of the transmitter is due earlier |
| `Transmitter.AssociationTx.Notification` | src/assoc/tx.rs:249-301 | the new state after any notification with the invariant kept, and a panic if and only if it is a heartbeat answer too short for the type, or for the length of one of ours |
| `Transmitter.ShortBeatExactly` | src/packet.rs:207-221 | reading a heartbeat answer runs past its end if and only if it has no type, or the type of one of ours and no length |
| `Transmitter.AssociationTx.PollSignalToSend` | src/assoc/tx.rs:366-417 | queued signals that fit, then the shutdown signal once both queues are empty |
| `Wire.ParseParam` | src/packet/param.rs:46-116 | a parameter parse consumes between 1 and all remaining bytes, for arbitrary bytes |
| `Wire.ParseChunk` | src/packet.rs:438-523 | a chunk parse consumes between 1 and all remaining bytes, for arbitrary bytes |
| `WireRoundTrip.ParamRoundTrip` | src/packet/param.rs:118-182 | every parameter (opaque cookie, no host name) takes its padded size and parses back, whatever follows |
| `WireRoundTrip.InitRoundTrip` | src/packet/init.rs:32-170 | an INIT value with aliases and options parses back |
| `WireRoundTrip.InitAckRoundTrip` | src/packet/init.rs:189-345 | an INIT ACK value with cookie, aliases, reported parameters and options parses back |
| `WireRoundTrip.SackRoundTrip` | src/packet/sack.rs:14-72 | a SACK with any blocks and duplicates that fit parses back |
| `WireRoundTrip.DataRoundTrip` | src/packet/data.rs:38-111 | a non-empty DATA value and its flags parse back |
| `WireRoundTrip.ChunkRoundTrip` | src/packet.rs:525-613 | every plain chunk takes exactly its padded `serialized_size` and parses back, whatever follows |
| `WireRoundTrip.BodyRoundTrip` | src/lib.rs:256-323 | the parse-and-advance loop over any list of serialized chunks sees exactly that list |
| `WireLayout.ChunkLayout` | src/packet.rs:525-584 | every plain chunk starts with its type of section 3.2 of RFC 9260 and its length, and fills whole words |
| `WireLayout.DataLayout` | src/packet/data.rs:70-111 | DATA byte by byte: flags I, U, B, E, TSN at 4, stream at 8, sequence number at 10, ppid at 12, payload from 16 on |
| `WireLayout.SackLayout` | src/packet/sack.rs:47-72 | SACK byte by byte: cumulative TSN at 4, window at 8, the counts at 12 and 14, every block and every duplicate at its place |
| `WireLayout.InitLayout` | src/packet/init.rs:133-170 | INIT byte by byte: tag at 4, window at 8, streams at 12 and 14, initial TSN at 16 |
| `WireLayout.InitAckLayout` | src/packet/init.rs:302-345 | the same for INIT ACK |
| `WireLayout.ShutdownLayout` | src/packet.rs:559-565 | SHUTDOWN byte by byte: eight bytes with the cumulative TSN at 4 |
| `WireLayout.ParamLayout` | src/packet/param.rs:118-182 | every plain parameter starts with its type and its length |
| `WireLayout.UnknownParamDecides` | src/packet/param.rs:184-213 | for all following bytes: the highest bit of an unknown parameter type decides whether the rest is read, the next one whether an INIT reports it |
| `WireLoops.ReadBody` | src/lib.rs:256-323 | the parse-and-advance loop terminates on arbitrary bytes and sees `Scan` |
| `WireLoops.ReadParams` | src/packet/init.rs:207-250 | the parameter loop of INIT and INIT ACK terminates on arbitrary bytes |
| `WireLoops.ReadSack` | src/packet/sack.rs:14-41 | the block and duplicate loops |
| `WireLoops.WriteSack` | src/packet/sack.rs:47-72 | the writing loops |
| `WireLoops.ReadSupported` | src/packet/param.rs:85-98 | the loop over address types |
| `WireLoops.ReadAliases` | src/packet/cookie.rs:237-255 | the alias loop of a cookie |
| `WireLoops.WriteCookie` | src/packet/cookie.rs:145-199 | a cookie and its alias loop |
| `WireLoops.MeasureCookie` | src/packet/cookie.rs:110-143 | the size loop of a cookie |
| `WireLoops.MeasureInitAck` | src/packet/init.rs:272-300 | the size loops of an INIT ACK |
| `CookiePath.CookieRoundTrip` | src/packet/cookie.rs:145-271 | a cookie takes its computed size and parses back with every field; it is the same cookie if and only if it has no fake alias |
| `CookiePath.CookiePanicsExactly` | src/packet/cookie.rs:201-218 | reading the fields one after the other runs past the end of the bytes, behind the length check, for exactly the lengths 33 to 36 |
| `CookiePath.CookieSurvives` | src/assoc/init.rs:92-129 | INIT ACK, parse, COOKIE ECHO, parse, `make_ours`: the original cookie, so its recomputed MAC matches |
| `HandshakeAgreement.HandshakeAgrees` | src/assoc/init.rs:35-373 | over every run each side makes at most one association, the initiator's only after the responder's; tags, initial TSNs, receive windows, ports and addresses agree, whichever INIT ACK was accepted; nothing panics |
| `HandshakeAgreement.HandshakeStartsCompatiblePairs` | src/assoc/init.rs:166-184 | with buffer limits below 2^32, the two directions of a finished handshake satisfy the hypotheses of the data-transfer theorems if and only if the smaller of the two outgoing stream counts is within the responder's incoming count (towards the responder) and within both incoming counts (towards the initiator) |
| `HandshakeAgreement.InitAckAtA` | src/assoc/init.rs:101-130 | the first INIT ACK decides, later ones change nothing |
| `HandshakeAgreement.EchoAtB` | src/assoc/init.rs:284-332 | the first COOKIE ECHO opens the responder, later ones change nothing |
| `HandshakeAgreement.CookieAckAtA` | src/assoc/init.rs:143-185 | the first COOKIE ACK opens the initiator, later ones change nothing, whatever follows it in the packet |
| `EndToEnd.HandshakeThenDelivery` | src/assoc/init.rs:335-373 | after every handshake both directions deliver prefixes of what was accepted and free nothing early, whatever network and channel do, also byte by byte over the wire; each receiver is the one the handshake made |
| `WireChannel.WireIsTransparent` | src/packet.rs:438-613 | while path MTU and SACKs fit 16-bit lengths, delivering what the parser reads from the serialized bytes gives the same run as delivering chunks and SACKs |
| `WireChannel.HistoryIsPlain` | src/assoc/tx.rs:498-506 | in every run with a path MTU below 65536 each chunk with payload parses back from its bytes |
| `WireChannel.SackIsPlainExactly` | src/packet/sack.rs:43-72 | a SACK of a receiver parses back if and only if it has fewer than 16380 blocks |
| `HandshakeCompletion.HandshakeCanComplete` | src/assoc/init.rs:35-373 | for all addresses, settings and random numbers the four packets arriving make both associations, with exactly these values |
| `HandshakeDriver.Connect` | src/assoc/init.rs:35-373 | two endpoint objects that pass the four packets to each other end up with associations that agree |
| `SctpEndpoint.Sctp.constructor` | src/lib.rs:168-184 | an endpoint without associations, whose tables are consistent |
| `SctpEndpoint.Sctp.NextSendImmediate` | src/lib.rs:342-346 | the oldest queued packet, which leaves the queue |
| `EndpointSafety.ReceiveKeepsValid` | src/lib.rs:186-240 | whatever packet arrives, every alias leads to an association and every id in use was handed out before |
| `EndpointSafety.AssociationMadeExactly` | src/assoc/init.rs:274-332 | whatever packet arrives, an association is made if and only if it is a COOKIE ECHO with a cookie that this endpoint signed, or the COOKIE ACK of a half-open association, from a peer without one |
| `EndpointSafety.InitIsStateless` | src/assoc/init.rs:188-251 | an INIT, whatever it carries, changes nothing but the send queue, by at most one packet |
| `EndpointSafety.InitAnsweredExactly` | src/assoc/init.rs:188-251 | an INIT is answered if and only if it parses and is alone in its packet: one INIT ACK to its sender with a signed cookie that holds what both said, under fresh numbers or those of an own INIT to that peer |
| `EndpointSafety.FoundUnderAllAddresses` | src/assoc/init.rs:335-373 | a new association is found under its primary address and all addresses the peer named; all other addresses lead where they did |
| `EndpointSafety.HalfOpenMovesExactly` | src/assoc/init.rs:82-131 | whatever packet arrives, a half-open association moves on if and only if it is the INIT ACK it waits for, which is answered once |
| `EndpointSafety.WrongTagIgnored` | src/lib.rs:249-254 | outside the handshake a packet with any other verification tag, or without an association, changes nothing |
| `EndpointSafety.ReceivePanicsExactly` | src/packet/cookie.rs:201-235 | for all states, headers and bytes: receiving a packet panics if and only if it starts with a COOKIE ECHO whose length field is 37 to 40 and within the packet |
| `EndpointSafety.ShortCookiePanics` | src/packet/cookie.rs:202-218 | a packet of 37 bytes that makes every endpoint panic |
| `PacketDispatch.PacketIsDispatched` | src/lib.rs:242-324 | for all packets outside the handshake with the tag of an association: without an ABORT exactly its chunks for the association are queued for it, in order, each heartbeat and each report is answered, in order, and nothing else changes; with an ABORT nothing is left of the association but that note, and everything of others stays |
| `PacketDispatch.RestIsDispatched` | src/lib.rs:186-240 | the same for what follows the chunks of the handshake in any packet |
| `PacketDispatch.BytesReachAssociation` | src/lib.rs:256-323 | receiving the serialized DATA, SACK, SHUTDOWN and heartbeat-answer chunks of the peer queues exactly these chunks, all and in order |
| `PacketDispatch.UnknownTypeDecides` | src/packet.rs:621-641 | for all following bytes: the highest bit of an unknown chunk type decides whether the packet is read on, the next one whether it is reported |
| `Unimplemented.UnimplementedExactly` | src/lib.rs:242-324 | for all packets: something that cannot be serialized enters the send queue if and only if the packet reaches an association under its tag, carries no ABORT, and has a chunk of an unknown type that asks for a report; under the same conditions something the receiver has no code for is queued if and only if the packet carries OP ERROR, ECNE, CWR or a cookie chunk behind those of the handshake |
| `Unimplemented.UnimplementedOutsideHandshake` | src/lib.rs:242-324 | the same judged on the packet and the tables alone, for packets that do not start with a chunk of the handshake |
| `Unimplemented.FourBytesAreEnough` | src/packet.rs:579-582 | an empty chunk of type 64 with the right tag is enough |
| `SctpEndpoint.Sctp.MakeNewAssoc` | src/assoc/init.rs:335-373 | tables, alias loop and the new association under an id that was never used; the tables stay consistent |
| `SctpEndpoint.Sctp.ProcessChunks` | src/lib.rs:242-324 | the loop over the chunks of a packet terminates on arbitrary bytes, keeps the tables consistent, and dispatches exactly the chunks of the packet as `PacketIsDispatched` says; with another tag nothing changes |
| `SctpEndpoint.Sctp.ReceiveData` | src/lib.rs:186-240 | for arbitrary packets: the tables stay consistent, the call panics exactly on a COOKIE ECHO of 37 to 40 bytes, an association is made exactly for a signed cookie or an awaited COOKIE ACK, and outside the handshake exactly the chunks of the packet are dispatched |

## Left out

- The reorder buffer and the reassembly queues find keys by equality. The original keeps them in tree maps over a comparison that is not transitive for keys further apart than its window, so `ReceiverConservesBytes`, which covers arbitrary arrivals, is about exact maps; the runs of the pair stay inside the window.
- The pair of sender and receiver does not stop at the receiver's runtime assertion: `AssertionNeverFails` says which runs never reach it, and delivery of unordered messages with payload holds for the code without it.
- Debug builds: `-` and `+` on TSNs in gap blocks panic on overflow there; the model wraps, as a release build does. Overflow of `usize`, `i64` and of the 64-bit association counter is not modelled.
- Path MTU probing (src/assoc/tx/pmtu.rs): when to probe and with which size is a parameter; the path MTU is a number that starts at 1200 and never decreases.
- Checksums, packet headers as bytes and the hash function: headers arrive parsed, the hash is an arbitrary function of everything in a cookie but its MAC.
- In `Duplex` the notifications of a receiver are passed to its transmitter together; chunks are bundled into packets and given to the endpoint in `PacketDispatch` only.
- The transmitter's notification of a DATA chunk (src/assoc/tx.rs:255): it bypasses the byte counters and no receiver produces it, so the invariants exclude it.
- Simultaneous open, association restart, a second `init_association` and ABORT during the handshake.
- How an application takes a new association from the endpoint, and the timing of COOKIE ACK in its transmitter: the packet may leave at any time after the association was made.
- `HeartBeat::Ours` and padding chunks do not parse back to themselves by design; OP ERROR and the reserved kinds have no wire form and take no bytes, as under the `fuzz` feature; without it serializing them panics, and `UnimplementedExactly` says which packets lead there.
- Socket addresses as fake addresses: fake addresses are 64-bit numbers.
- The asynchronous and blocking wrappers, examples and fuzzing drivers, logging and `print_state`.
- The chunk, INIT and DATA parsers are functions; only their loops are also methods.
- HandshakeCompletion.HandshakeCanComplete: shows that the handshake completes when its packets arrive, not that lost packets are sent again; the original does not repeat them.
